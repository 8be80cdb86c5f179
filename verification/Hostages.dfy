/**
  When the plan of an update can wait for ever: a failure to remove a machine that is to be recreated
  leaves the machines waiting that ask it for firewall rules.
*/
module Hostages {
  import opened ActionGraph
  import opened ActionInvariant
  import opened ActionRuns
  import opened ActionProgress
  import opened ActionStuck
  import opened ActionTree
  import opened PlanOrder
  import opened PlanNumbers
  import opened PlanSchedule
  import opened Resources
  import opened Deployers
  import opened Convergence
  import opened UpdatePlans
  import opened LevelOrder
  import opened PlanSteps
  import opened CompiledPlans
  import opened Machines

  // ------------------------------------------------------------------------
  // Applications
  // ------------------------------------------------------------------------

  predicate HasEnvironment(d: Deployment) {
    match d
    case Environment(_, _) => true
    case Composite(_, _, children) => exists c | c in children :: HasEnvironment(c)
    case _ => false
  }

  predicate IsVmChild(ds: seq<Deployment>, name: string) {
    var c := ChildByName(ds, name);
    c.Some? && c.value.Vm?
  }

  /** Machines are linked to machines that are children of the application. */
  predicate Linked(d: Deployment)
    requires d.Composite?
  {
    forall m, supply | m in MachinesOf(d, []) && supply in m.vm.supplies :: IsVmChild(d.children, supply.name)
  }

  /** The top of a deployment tree: the chef environment, if any, is its child. */
  predicate Application(d: Deployment) {
    && d.Composite? && WellNamed(d) && Linked(d)
    && forall c | c in d.children :: c.Environment? || !HasEnvironment(c)
  }

  /** The machine is a child of both applications, and the update recreates it. */
  predicate RecreatedVm(s: Settings, b: Deployment, a: Deployment, name: string)
    requires b.Composite? && a.Composite?
  {
    && IsVmChild(b.children, name) && IsVmChild(a.children, name)
    && Recreated(s, ChildByName(b.children, name).value, ChildByName(a.children, name).value, [name])
  }

  /** The machine is a child of the old application, and the update removes it, for good or to recreate it. */
  predicate RemovedVm(s: Settings, b: Deployment, a: Deployment, name: string)
    requires b.Composite? && a.Composite?
  {
    IsVmChild(b.children, name) && (ChildByName(a.children, name).None? || RecreatedVm(s, b, a, name))
  }

  /** A machine made anew asks another one, which is recreated, to let it in. */
  predicate IsHostage(s: Settings, b: Deployment, a: Deployment, m: Host, supply: Supply)
    requires b.Composite? && a.Composite?
  {
    && m in Remade(s, b, a, []) && supply in m.vm.supplies
    && m.path != [supply.name] && RecreatedVm(s, b, a, supply.name)
  }

  ghost predicate HoldsHostages(s: Settings, b: Deployment, a: Deployment)
    requires b.Composite? && a.Composite?
  {
    s.firewalled && exists m, supply :: IsHostage(s, b, a, m, supply)
  }

  // ------------------------------------------------------------------------
  // To which child an action belongs
  // ------------------------------------------------------------------------

  lemma {:induction false} ShareHas(ops: seq<Op>, place: Path, op: Op)
    ensures op in Share(ops, place) <==> op in ops && place <= op.path
    decreases |ops|
  {
    if ops != [] {
      ShareHas(ops[1..], place, op);
      assert ops == [ops[0]] + ops[1..];
    }
  }

  /** The actions for the child of some name. */
  function ChildOps(s: Settings, b: Deployment, a: Deployment, name: string): seq<Op>
    requires b.Composite? && a.Composite?
  {
    match (ChildByName(b.children, name), ChildByName(a.children, name))
    case (Some(was), Some(now)) => OpsOf(UpdatePlan(s, was, now, [name]))
    case (None, Some(now)) => OpsOf(CreatePlan(s, now, [name]))
    case (Some(was), None) => OpsOf(DeletePlan(s, was, [name]))
    case (None, None) => []
  }

  lemma {:induction false} OpsOfChild(s: Settings, b: Deployment, a: Deployment, name: string, op: Op)
    requires b.Composite? && a.Composite? && WellNamed(b) && WellNamed(a) && [name] <= op.path
    ensures op in OpsOf(UpdatePlan(s, b, a, [])) <==> op in ChildOps(s, b, a, name)
  {
    hide UpdatePlan, CreatePlan, DeletePlan, Share, Ops, WellNamed;
    EachChildOnce(s, b, a, [], name);
    assert [] + [name] == [name];
    ShareHas(OpsOf(UpdatePlan(s, b, a, [])), [name], op);
  }

  /** What follows the children are actions on the proxy and its ports. */
  predicate OnProxy(op: Op) {
    op.ConfigureProxy? || op.DeleteProxy? || op.OpenPorts? || op.ClosePorts?
  }

  lemma {:induction false} OwnHooksOnProxy(s: Settings, service: Option<Service>, path: Path)
    ensures forall op :: op in OpsOf(AfterCreated(s, service, path)) ==> OnProxy(op) && op.path == path
    ensures forall op :: op in OpsOf(AfterDeleted(s, service, path)) ==> OnProxy(op) && op.path == path
  {
    hide AfterCreated, AfterDeleted;
    HookOps(s, service, path);
  }

  lemma {:induction false} HooksOnProxy(s: Settings, before: Option<Service>, after: Option<Service>, path: Path)
    ensures forall op :: op in OpsOf(AfterUpdated(s, before, after, path)) ==> OnProxy(op) && op.path == path
    ensures forall op :: op in OpsOf(AfterCreated(s, after, path)) ==> OnProxy(op) && op.path == path
    ensures forall op :: op in OpsOf(AfterDeleted(s, after, path)) ==> OnProxy(op) && op.path == path
  {
    hide AfterUpdated, AfterCreated, AfterDeleted, ServiceActions, OpsOf;
    UpdateHookOps(s, before, after, path);
    OwnHooksOnProxy(s, before, path);
    OwnHooksOnProxy(s, after, path);
    if after.Some? {
      ServiceOps(s, after.value, ProxyOf(before, after.value), path);
    }
  }

  lemma {:induction false} NamedBelow(plans: seq<Plan<Op>>, path: Path, names: seq<string>, op: Op)
    requires Named(plans, path, names) && op in OpsAll(plans)
    ensures exists n :: 0 <= n < |plans| && path + [names[n]] <= op.path && op in Ops(plans[n])
  {
    hide Sound, TamePlan, ConflictFree;
    var n := AmongItems(plans, op);
    assert Within(Ops(plans[n]), path + [names[n]]);
  }

  lemma {:induction false} AmongItems(plans: seq<Plan<Op>>, op: Op) returns (n: nat)
    requires op in OpsAll(plans)
    ensures n < |plans| && op in Ops(plans[n])
    decreases |plans|
  {
    if op in Ops(plans[0]) {
      n := 0;
    } else {
      n := AmongItems(plans[1..], op);
      n := n + 1;
    }
  }

  /** Each action of an update, those on the application's own proxy apart, is for some child. */
  lemma {:induction false} ChildOfOp(s: Settings, b: Deployment, a: Deployment, op: Op) returns (name: string)
    requires b.Composite? && a.Composite? && WellNamed(b) && WellNamed(a) && SameKind(b, a)
    requires op in OpsOf(UpdatePlan(s, b, a, [])) && !OnProxy(op)
    ensures [name] <= op.path && op in ChildOps(s, b, a, name)
  {
    hide UpdatePlan, Named, CreateNew, DeleteOld, UpdateAll, NonNull, AfterUpdated, OpsAll;
    var olds, news := b.children, a.children;
    UpdateOps(s, b, a, []);
    HooksOnProxy(s, b.service, a.service, []);
    var u := UpdateAllNamed(s, olds, news, []);
    var c := CreateNewNamed(s, olds, news, []);
    var d := DeleteOldNamed(s, olds, news, []);
    var updates := UpdateAll(s, olds, news, []);
    var creates := NonNull(CreateNew(s, olds, news, []));
    var deletes := NonNull(DeleteOld(s, olds, news, []));
    if op in OpsAll(updates) {
      NamedBelow(updates, [], u, op);
    } else if op in OpsAll(creates) {
      NamedBelow(creates, [], c, op);
    } else {
      NamedBelow(deletes, [], d, op);
    }
    name := op.path[0];
    assert [name] <= op.path;
    OpsOfChild(s, b, a, name, op);
  }

  // ------------------------------------------------------------------------
  // Chef environments
  // ------------------------------------------------------------------------

  predicate MakesEnvironment(op: Op) {
    op.CreateEnvironment?
  }

  lemma {:induction false} CreateWithout(s: Settings, d: Deployment, path: Path)
    requires !HasEnvironment(d)
    ensures NoneOf(OpsOf(CreatePlan(s, d, path)), MakesEnvironment)
    decreases d, 0, 0
  {
    hide GenerateComposite, AfterCreated, CreateMachine;
    match d {
      case Vm(_, _, _, _, _, _, _) =>
        CreateVmWithout(s, d, path);
      case External(_) =>
      case Composite(_, service, children) =>
        CreateAllWithout(s, children, path);
        HooksOnProxy(s, None, service, path);
        OpsOfComposite(CreateAll(s, children, path), None, AfterCreated(s, service, path));
        NoneOfHook(OpsOf(AfterCreated(s, service, path)));
        NoneOfJoin(Flat(CreateAll(s, children, path)), OpsOf(AfterCreated(s, service, path)), MakesEnvironment);
    }
  }

  lemma {:induction false} CreateVmWithout(s: Settings, d: Deployment, path: Path)
    requires d.Vm?
    ensures NoneOf(OpsOf(CreatePlan(s, d, path)), MakesEnvironment)
  {
    hide CreatePlan;
    VmCreateOps(s, d, path);
  }

  lemma {:induction false} NoneOfHook(ops: seq<Op>)
    requires forall op :: op in ops ==> OnProxy(op)
    ensures NoneOf(ops, MakesEnvironment)
  {
    forall n | 0 <= n < |ops| ensures !MakesEnvironment(ops[n]) {
      assert ops[n] in ops;
    }
  }

  lemma {:induction false} CreateAllWithout(s: Settings, ds: seq<Deployment>, path: Path)
    requires forall c :: c in ds ==> !HasEnvironment(c)
    ensures NoneOf(Flat(CreateAll(s, ds, path)), MakesEnvironment)
    decreases ds, 1, |ds|
  {
    hide NoneOf;
    if ds == [] {
      NoneOfNothing(MakesEnvironment);
    } else {
      CreateWithout(s, ds[0], path + [ds[0].name]);
      CreateAllWithout(s, ds[1..], path);
      NoneOfJoin(OpsOf(CreatePlan(s, ds[0], path + [ds[0].name])), Flat(CreateAll(s, ds[1..], path)), MakesEnvironment);
    }
  }

  lemma {:induction false} DeleteWithout(s: Settings, d: Deployment, path: Path)
    ensures NoneOf(OpsOf(DeletePlan(s, d, path)), MakesEnvironment)
  {
    DeletionsRemove(s, d, path);
  }

  lemma {:induction false} UpdateWithout(s: Settings, b: Deployment, a: Deployment, path: Path)
    requires !HasEnvironment(a)
    ensures NoneOf(OpsOf(UpdatePlan(s, b, a, path)), MakesEnvironment)
    decreases a, 0, 0
  {
    hide GenerateComposite, LevelActions, AfterUpdated, UpdateMachine, NoneOf;
    NoneOfNothing(MakesEnvironment);
    match (b, a) {
      case (Vm(_, _, _, _, _, _, _), Vm(_, _, _, _, _, _, _)) =>
        UpdateVmWithout(s, b, a, path);
      case (Composite(_, bService, olds), Composite(_, aService, news)) =>
        UpdateOps(s, b, a, path);
        LevelWithout(s, olds, news, path);
        HooksOnProxy(s, bService, aService, path);
        NoneOfHook(OpsOf(AfterUpdated(s, bService, aService, path)));
        NoneOfJoin(LevelOps(s, olds, news, path), OpsOf(AfterUpdated(s, bService, aService, path)), MakesEnvironment);
      case _ =>
    }
  }

  lemma {:induction false} UpdateVmWithout(s: Settings, b: Deployment, a: Deployment, path: Path)
    requires b.Vm? && a.Vm?
    ensures NoneOf(OpsOf(UpdateMachine(s, b, a, path)), MakesEnvironment)
  {
    hide UpdateMachine, CreatePlan, DeletePlan;
    UpdateVmOps(s, b, a, path);
    DeleteWithout(s, b, path);
    CreateVmWithout(s, a, path);
  }

  lemma {:induction false} LevelWithout(s: Settings, olds: seq<Deployment>, news: seq<Deployment>, path: Path)
    requires forall c :: c in news ==> !HasEnvironment(c)
    ensures NoneOf(LevelOps(s, olds, news, path), MakesEnvironment)
    decreases news, 2, 0
  {
    hide NoneOf;
    UpdateAllWithout(s, olds, news, path);
    CreateNewWithout(s, olds, news, path);
    DeleteOldWithout(s, olds, news, path);
    LevelNoneOf(s, olds, news, path, MakesEnvironment);
  }

  lemma {:induction false} UpdateAllWithout(s: Settings, olds: seq<Deployment>, news: seq<Deployment>, path: Path)
    requires forall c :: c in news ==> !HasEnvironment(c)
    ensures NoneOf(OpsAll(UpdateAll(s, olds, news, path)), MakesEnvironment)
    decreases news, 1, |news|
  {
    hide NoneOf, UpdatePlan;
    NoneOfNothing(MakesEnvironment);
    if news != [] {
      var b, here := ChildByName(olds, news[0].name), path + [news[0].name];
      UpdateAllFirst(s, olds, news, path);
      UpdateAllWithout(s, olds, news[1..], path);
      if b.Some? {
        UpdateWithout(s, b.value, news[0], here);
      }
      NoneOfJoin(if b.None? then [] else OpsOf(UpdatePlan(s, b.value, news[0], here)),
                 OpsAll(UpdateAll(s, olds, news[1..], path)), MakesEnvironment);
    }
  }

  lemma {:induction false} CreateNewWithout(s: Settings, olds: seq<Deployment>, news: seq<Deployment>, path: Path)
    requires forall c :: c in news ==> !HasEnvironment(c)
    ensures NoneOf(OpsAll(NonNull(CreateNew(s, olds, news, path))), MakesEnvironment)
    decreases |news|
  {
    hide NoneOf, CreatePlan;
    NoneOfNothing(MakesEnvironment);
    FlatNonNull(CreateNew(s, olds, news, path));
    if news != [] {
      var first := if ChildByName(olds, news[0].name).Some? then None else CreatePlan(s, news[0], path + [news[0].name]);
      CreateNewWithout(s, olds, news[1..], path);
      FlatNonNull(CreateNew(s, olds, news[1..], path));
      CreateWithout(s, news[0], path + [news[0].name]);
      NoneOfJoin(OpsOf(first), Flat(CreateNew(s, olds, news[1..], path)), MakesEnvironment);
    }
  }

  lemma {:induction false} DeleteOldWithout(s: Settings, olds: seq<Deployment>, news: seq<Deployment>, path: Path)
    ensures NoneOf(OpsAll(NonNull(DeleteOld(s, olds, news, path))), MakesEnvironment)
    decreases |olds|
  {
    hide NoneOf, DeletePlan;
    NoneOfNothing(MakesEnvironment);
    FlatNonNull(DeleteOld(s, olds, news, path));
    if olds != [] {
      var first := if ChildByName(news, olds[0].name).Some? then None else DeletePlan(s, olds[0], path + [olds[0].name]);
      DeleteOldWithout(s, olds[1..], news, path);
      FlatNonNull(DeleteOld(s, olds[1..], news, path));
      DeleteWithout(s, olds[0], path + [olds[0].name]);
      NoneOfJoin(OpsOf(first), Flat(DeleteOld(s, olds[1..], news, path)), MakesEnvironment);
    }
  }

  lemma {:induction false} ChildOfApplication(d: Deployment, name: string)
    requires Application(d) && ChildByName(d.children, name).Some?
    ensures var c := ChildByName(d.children, name).value; c.Environment? || !HasEnvironment(c)
  {
  }

  /** An update creates chef environments only as children of the application. */
  lemma {:induction false} EnvironmentsOnTop(s: Settings, b: Deployment, a: Deployment, op: Op)
    requires b.Composite? && WellNamed(b) && Application(a) && SameKind(b, a)
    requires op in OpsOf(UpdatePlan(s, b, a, [])) && op.CreateEnvironment?
    ensures |op.path| == 1 && ChildByName(a.children, op.path[0]).Some?
  {
    hide UpdatePlan, CreatePlan, DeletePlan, Application;
    ApplicationIs(a);
    var name := ChildOfOp(s, b, a, op);
    var was, now := ChildByName(b.children, name), ChildByName(a.children, name);
    if now.None? {
      DeleteWithout(s, was.value, [name]);
    } else {
      ChildOfApplication(a, name);
      if !now.value.Environment? {
        if was.None? {
          CreateWithout(s, now.value, [name]);
        } else {
          UpdateWithout(s, was.value, now.value, [name]);
        }
      } else if was.None? {
        EnvironmentOps(s, now.value, now.value, [name]);
      } else {
        SameKindChild(b, a, name);
        EnvironmentOps(s, was.value, now.value, [name]);
      }
    }
  }

  lemma {:induction false} ApplicationIs(d: Deployment)
    requires Application(d)
    ensures d.Composite? && WellNamed(d)
  {
  }

  lemma {:induction false} SameKindChild(b: Deployment, a: Deployment, name: string)
    requires b.Composite? && a.Composite? && SameKind(b, a)
    requires ChildByName(b.children, name).Some? && ChildByName(a.children, name).Some?
    ensures SameKind(ChildByName(b.children, name).value, ChildByName(a.children, name).value)
  {
    assert SameKindAs(b.children, ChildByName(a.children, name).value);
  }

  lemma {:induction false} EnvironmentOps(s: Settings, b: Deployment, a: Deployment, path: Path)
    requires b.Environment? && a.Environment?
    ensures forall op :: op in OpsOf(CreatePlan(s, a, path)) || op in OpsOf(UpdatePlan(s, b, a, path)) ==> op.path == path
  {
    OpsOfTwo(Act(DeleteEnvironment(path)), Act(CreateEnvironment(path, a.attributes)));
  }

  // ------------------------------------------------------------------------
  // What can come before an action that is looked for
  // ------------------------------------------------------------------------

  lemma {:induction false} NeverNarrow(p: Plan<Op>, x: OpSet, y: OpSet, x': OpSet, y': OpSet, k: Step)
    requires NeverAfter(p, x, y, k) && (forall op :: x'(op) ==> x(op)) && forall op :: y'(op) ==> y(op)
    ensures NeverAfter(p, x', y', k)
    decreases p
  {
    if p.Group? {
      forall m | 0 <= m < |p.items| ensures NeverAfter(p.items[m], x', y', k) {
        NeverNarrow(p.items[m], x, y, x', y', k);
      }
      forall m, n | p.inSequence && 0 <= m < n < |p.items| ensures Unmixed(k, p.items[m], p.items[n], x', y') {
        assert Unmixed(k, p.items[m], p.items[n], x, y);
        NoneOfNarrow(Ops(p.items[m]), x, x');
        NoneOfNarrow(Ops(p.items[n]), y, y');
      }
    }
  }

  lemma {:induction false} NoneOfNarrow(ops: seq<Op>, x: OpSet, x': OpSet)
    requires forall op :: x'(op) ==> x(op)
    ensures NoneOf(ops, x) ==> NoneOf(ops, x')
  {
  }

  predicate AnyOp(op: Op) {
    true
  }

  lemma {:induction false} MachineDeep(s: Settings, d: Deployment, path: Path)
    requires d.Vm?
    ensures ActNever(CreateMachine(s, d, path), AnyOp, IsSought, GroupStep)
  {
    var acts := [Act(CreateVm(path, d.params)),
                 ActIf(s.configureOnCreate, ConfigureVm(path, d.params, s.fixed)),
                 ActIf(s.firewalled, CreateFirewallRules(path, d.rules, d.node, d.supplies))];
    var items := NonNull(acts);
    forall m | 0 <= m < |items| ensures items[m].Single? {
      var i := NonNullFrom(acts, m);
    }
  }

  /** In a creation, what is looked for waits only for single actions that are its neighbours. */
  lemma {:induction false} CreateDeep(s: Settings, d: Deployment, path: Path)
    ensures ActNever(CreatePlan(s, d, path), AnyOp, IsSought, GroupStep)
    decreases d, 0, 0
  {
    hide NeverAfter, GenerateComposite, AfterCreated, CreateMachine;
    match d {
      case Vm(_, _, _, _, _, _, _) =>
        MachineDeep(s, d, path);
        QuietActNever(Act(ProvisionVm(path, d.runlist)), AnyOp, IsSought, GroupStep);
        PairNever(CreateMachine(s, d, path), Act(ProvisionVm(path, d.runlist)), AnyOp, IsSought, GroupStep);
      case Environment(_, attributes) =>
        SingleNever(CreateEnvironment(path, attributes), AnyOp, IsSought, GroupStep);
      case External(_) =>
      case Composite(_, service, children) =>
        CreateAllDeep(s, children, path);
        HooksQuiet(s, service, path);
        QuietActNever(AfterCreated(s, service, path), AnyOp, IsSought, GroupStep);
        CompositeNever(CreateAll(s, children, path), AfterCreated(s, service, path), AnyOp, IsSought, GroupStep);
    }
  }

  lemma {:induction false} SingleNever(op: Op, x: OpSet, y: OpSet, k: Step)
    ensures ActNever(Act(op), x, y, k)
  {
  }

  lemma {:induction false} CreateAllDeep(s: Settings, ds: seq<Deployment>, path: Path)
    ensures forall n :: 0 <= n < |ds| ==> ActNever(CreateAll(s, ds, path)[n], AnyOp, IsSought, GroupStep)
    decreases ds, 1, |ds|
  {
    if ds != [] {
      CreateDeep(s, ds[0], path + [ds[0].name]);
      CreateAllDeep(s, ds[1..], path);
    }
  }

  /** The action is for a child that goes away. */
  predicate Leaving(b: Deployment, a: Deployment, op: Op)
    requires b.Composite? && a.Composite?
  {
    op.path != [] && ChildByName(b.children, op.path[0]).Some? && ChildByName(a.children, op.path[0]).None?
  }

  /** All actions but those for children that go away and those that remove the machine `t` to recreate it. */
  function Staying(s: Settings, b: Deployment, a: Deployment, t: string): OpSet
    requires b.Composite? && a.Composite?
  {
    (op: Op) => !Leaving(b, a, op) && !(RecreatedVm(s, b, a, t) && op.path == [t] && Removes(op))
  }

  function SoughtAt(t: string): OpSet {
    (op: Op) => op.path == [t] && IsSought(op)
  }

  /** On the top level, the updates. */
  lemma {:induction false} ChildDeep(s: Settings, b: Deployment, a: Deployment, t: string)
    requires b.Composite? && a.Composite? && WellNamed(b) && WellNamed(a) && SameKind(b, a)
    requires ChildByName(b.children, t).Some? && ChildByName(a.children, t).Some?
    ensures ActNever(UpdatePlan(s, ChildByName(b.children, t).value, ChildByName(a.children, t).value, [t]),
              Staying(s, b, a, t), SoughtAt(t), GroupStep)
  {
    hide NeverAfter, NoneOf, UpdateMachine, CreatePlan, DeletePlan, GenerateComposite, LevelActions, AfterUpdated;
    var was, now := ChildByName(b.children, t).value, ChildByName(a.children, t).value;
    var x, y := Staying(s, b, a, t), SoughtAt(t);
    SameKindChild(b, a, t);
    match (was, now) {
      case (Vm(_, _, _, _, _, _, _), Vm(_, _, _, _, _, _, _)) =>
        MachineChildDeep(s, b, a, t);
      case (Environment(_, _), Environment(_, attributes)) =>
        SingleNever(DeleteEnvironment([t]), x, y, GroupStep);
        SingleNever(CreateEnvironment([t], attributes), x, y, GroupStep);
        PairNever(Act(DeleteEnvironment([t])), Act(CreateEnvironment([t], attributes)), x, y, GroupStep);
      case (External(_), External(_)) =>
      case (Composite(_, _, _), Composite(_, _, _)) =>
        CompositeSeeksNotHere(s, was, now, t);
        QuietActNever(UpdatePlan(s, was, now, [t]), x, y, GroupStep);
    }
  }

  lemma {:induction false} MachineChildDeep(s: Settings, b: Deployment, a: Deployment, t: string)
    requires b.Composite? && a.Composite? && IsVmChild(b.children, t) && IsVmChild(a.children, t)
    ensures ActNever(UpdateMachine(s, ChildByName(b.children, t).value, ChildByName(a.children, t).value, [t]),
              Staying(s, b, a, t), SoughtAt(t), GroupStep)
  {
    hide NeverAfter, CreatePlan, DeletePlan;
    var was, now := ChildByName(b.children, t).value, ChildByName(a.children, t).value;
    var x, y := Staying(s, b, a, t), SoughtAt(t);
    if Recreated(s, was, now, [t]) {
      VmDeleteOps(s, was, [t]);
      QuietActNever(DeletePlan(s, was, [t]), x, y, GroupStep);
      CreateDeep(s, now, [t]);
      if CreatePlan(s, now, [t]).Some? {
        NeverNarrow(CreatePlan(s, now, [t]).value, AnyOp, IsSought, x, y, GroupStep);
      }
      PairNever(DeletePlan(s, was, [t]), CreatePlan(s, now, [t]), x, y, GroupStep);
    } else {
      UpdateVmOps(s, was, now, [t]);
      QuietActNever(UpdateMachine(s, was, now, [t]), x, y, GroupStep);
    }
  }

  /** A composite's own actions are not looked for. */
  lemma {:induction false} CompositeSeeksNotHere(s: Settings, b: Deployment, a: Deployment, t: string)
    requires b.Composite? && a.Composite? && WellNamed(b) && WellNamed(a) && SameKind(b, a)
    ensures NoneOf(OpsOf(UpdatePlan(s, b, a, [t])), SoughtAt(t))
  {
    hide UpdatePlan, Named, CreateNew, DeleteOld, UpdateAll, NonNull, AfterUpdated, OpsAll, NoneOf;
    var olds, news, y := b.children, a.children, SoughtAt(t);
    UpdateOps(s, b, a, [t]);
    UpdateHookQuiet(s, b.service, a.service, [t]);
    NoneOfNarrow(OpsOf(AfterUpdated(s, b.service, a.service, [t])), IsSought, y);
    var u := UpdateAllNamed(s, olds, news, [t]);
    var c := CreateNewNamed(s, olds, news, [t]);
    var d := DeleteOldNamed(s, olds, news, [t]);
    NamedNotAt(UpdateAll(s, olds, news, [t]), [t], u, y);
    NamedNotAt(NonNull(CreateNew(s, olds, news, [t])), [t], c, y);
    NamedNotAt(NonNull(DeleteOld(s, olds, news, [t])), [t], d, y);
    LevelNoneOf(s, olds, news, [t], y);
    NoneOfJoin(LevelOps(s, olds, news, [t]), OpsOf(AfterUpdated(s, b.service, a.service, [t])), y);
  }

  lemma {:induction false} NamedNotAt(plans: seq<Plan<Op>>, path: Path, names: seq<string>, y: OpSet)
    requires Named(plans, path, names) && forall op :: y(op) ==> op.path == path
    ensures NoneOf(OpsAll(plans), y)
  {
    hide Sound, TamePlan, ConflictFree;
    forall n | 0 <= n < |plans| ensures NoneOf(Ops(plans[n]), y) {
      forall m | 0 <= m < |Ops(plans[n])| ensures !y(Ops(plans[n])[m]) {
        assert path < path + [names[n]] <= Ops(plans[n])[m].path;
      }
    }
    NoneOfItems(plans, y);
  }

  lemma {:induction false} UpdateAllDeep(s: Settings, b: Deployment, a: Deployment, news: seq<Deployment>, t: string)
    requires b.Composite? && a.Composite? && WellNamed(b) && WellNamed(a) && SameKind(b, a)
    requires forall c :: c in news ==> c in a.children
    ensures forall n :: 0 <= n < |UpdateAll(s, b.children, news, [])| ==>
      NeverAfter(UpdateAll(s, b.children, news, [])[n], Staying(s, b, a, t), SoughtAt(t), GroupStep)
    decreases |news|
  {
    hide NeverAfter, UpdatePlan, Staying, WellNamed, SameKind;
    if news != [] {
      assert forall c :: c in news[1..] ==> c in news;
      UpdateAllDeep(s, b, a, news[1..], t);
      var c := news[0];
      var was := ChildByName(b.children, c.name);
      if was.Some? {
        assert c in a.children;
        UpdateChildDeep(s, b, a, c, t);
      }
    }
  }

  lemma {:induction false} UpdateChildDeep(s: Settings, b: Deployment, a: Deployment, c: Deployment, t: string)
    requires b.Composite? && a.Composite? && WellNamed(b) && WellNamed(a) && SameKind(b, a)
    requires c in a.children && ChildByName(b.children, c.name).Some?
    ensures ActNever(UpdatePlan(s, ChildByName(b.children, c.name).value, c, [] + [c.name]), Staying(s, b, a, t), SoughtAt(t), GroupStep)
  {
    hide NeverAfter, UpdatePlan, Staying;
    var was := ChildByName(b.children, c.name).value;
    assert [] + [c.name] == [c.name];
    OnlyChild(a.children, c);
    if c.name == t {
      ChildDeep(s, b, a, t);
    } else {
      UpdateWithin(s, was, c, [c.name]);
      ElsewhereNone(OpsOf(UpdatePlan(s, was, c, [c.name])), SoughtAt(t), [], t, c.name);
      QuietActNever(UpdatePlan(s, was, c, [c.name]), Staying(s, b, a, t), SoughtAt(t), GroupStep);
    }
  }

  lemma {:induction false} CreateNewDeep(s: Settings, olds: seq<Deployment>, news: seq<Deployment>, path: Path)
    ensures forall n :: 0 <= n < |NonNull(CreateNew(s, olds, news, path))| ==>
      NeverAfter(NonNull(CreateNew(s, olds, news, path))[n], AnyOp, IsSought, GroupStep)
    decreases |news|
  {
    hide NeverAfter, CreatePlan;
    if news != [] {
      CreateNewDeep(s, olds, news[1..], path);
      CreateDeep(s, news[0], path + [news[0].name]);
    }
  }

  lemma {:induction false} DeletedLeave(s: Settings, b: Deployment, a: Deployment, x: OpSet)
    requires b.Composite? && a.Composite? && WellNamed(b) && forall op :: x(op) ==> !Leaving(b, a, op)
    ensures forall n :: 0 <= n < |NonNull(DeleteOld(s, b.children, a.children, []))| ==>
      NoneOf(Ops(NonNull(DeleteOld(s, b.children, a.children, []))[n]), x)
  {
    hide Sound, NonNull, DeleteOld;
    var plans := NonNull(DeleteOld(s, b.children, a.children, []));
    var d := DeleteOldNamed(s, b.children, a.children, []);
    forall n | 0 <= n < |plans| ensures NoneOf(Ops(plans[n]), x) {
      assert d[n] in d;
      forall m | 0 <= m < |Ops(plans[n])| ensures !x(Ops(plans[n])[m]) {
        assert [] + [d[n]] <= Ops(plans[n])[m].path;
        assert Leaving(b, a, Ops(plans[n])[m]);
      }
    }
  }

  /** What an update does before something that is looked for, but for its neighbours, is for children that go away or removes what is recreated. */
  lemma {:induction false} UpdateDeep(s: Settings, b: Deployment, a: Deployment, t: string)
    requires b.Composite? && a.Composite? && WellNamed(b) && WellNamed(a) && SameKind(b, a)
    ensures ActNever(UpdatePlan(s, b, a, []), Staying(s, b, a, t), SoughtAt(t), GroupStep)
  {
    hide NeverAfter, NoneOf, GenerateComposite, LevelActions, AfterUpdated, NonNull, CreateNew, DeleteOld, UpdateAll, WellNamed, SameKind;
    var x, y := Staying(s, b, a, t), SoughtAt(t);
    var updates := UpdateAll(s, b.children, a.children, []);
    var creates := NonNull(CreateNew(s, b.children, a.children, []));
    var deletes := NonNull(DeleteOld(s, b.children, a.children, []));
    UpdateAllDeep(s, b, a, a.children, t);
    CreateNewDeep(s, b.children, a.children, []);
    forall n | 0 <= n < |creates| ensures NeverAfter(creates[n], x, y, GroupStep) {
      NeverNarrow(creates[n], AnyOp, IsSought, x, y, GroupStep);
    }
    DeletedLeave(s, b, a, x);
    LevelNever(updates, creates, deletes, x, y, GroupStep);
    UpdateHookQuiet(s, b.service, a.service, []);
    NoneOfNarrow(OpsOf(AfterUpdated(s, b.service, a.service, [])), IsSought, y);
    QuietActNever(AfterUpdated(s, b.service, a.service, []), x, y, GroupStep);
    CompositeNever(LevelActions(updates, creates, deletes), AfterUpdated(s, b.service, a.service, []), x, y, GroupStep);
  }

  // ------------------------------------------------------------------------
  // An update without hostages
  // ------------------------------------------------------------------------

  lemma {:induction false} LeafHasOp(g: Graph, p: Plan<Op>, base: nat, up: Id, depends: seq<Id>, requiredBy: seq<Id>, i: Id)
    requires WellFormed(g) && Placed(g, p, base, up, depends, requiredBy) && base <= i < base + Count(p) && !g.nodes[i].isGroup
    ensures OpAt(p, base, i).Some?
    decreases p
  {
    hide WellFormed, PlacedAll;
    if p.Group? {
      var n := ItemOf(p.items, base, i);
      var b, dep, req := ItemPlaced(g, p.inSequence, p.items, base, base + Count(p) - 1, [], n);
      LeafHasOp(g, p.items[n], b, base + Count(p) - 1, dep, req, i);
      OpInItem(p.items, base, n, i);
    }
  }

  /** What comes after an action comes after the item around it as well, or lies in that item. */
  lemma {:induction false} GroupLeads(g: Graph, d: Id, i: Id, a: Id)
    requires WellFormed(g) && d < Size(g) && i < Size(g) && a < Size(g) && Under(g, i, d) && Leads(g, i, a)
    ensures Leads(g, d, a) || Under(g, a, d)
  {
    hide Downstream, NodeOk;
    var x, z :| 0 <= x < Size(g) && 0 <= z < Size(g) && Under(g, i, x) && Under(g, a, z) && Downstream(g, x, z);
    DownstreamShape(g, x, z);
    UnderLinear(g, i, d, x);
    if !Under(g, d, x) {
      assert Under(g, d, d) && x != d;
      AboveOf(g, x, d);
      BelowUp(g, a, z, d);
    }
  }

  /** An action of the plan, by its number. */
  lemma {:induction false} ActionAt(p: Plan<Op>, i: Id)
    requires OpAt(p, 0, i).Some?
    ensures OpAt(p, 0, i).value in Ops(p)
  {
    OpAtAmong(p, 0, i);
  }

  /** The plan of an update of applications, and what is needed of them. */
  ghost predicate Updates(s: Settings, b: Deployment, a: Deployment, p: Plan<Op>) {
    && b.Composite? && WellNamed(b) && Application(a) && SameKind(b, a)
    && UpdatePlan(s, b, a, []) == Some(p)
  }

  /** Machines that ask for rules are made anew, and they ask children of the application. */
  lemma {:induction false} RulesAsked(s: Settings, b: Deployment, a: Deployment, p: Plan<Op>, op: Op, supply: Supply) returns (m: Host)
    requires Updates(s, b, a, p) && op in Ops(p) && op.CreateFirewallRules? && supply in op.supplies
    ensures m in Remade(s, b, a, []) && op == RulesOf(m) && s.firewalled && IsVmChild(a.children, supply.name)
  {
    hide UpdatePlan, Ops, WellNamed, SameKind;
    UpdateRules(s, b, a, []);
    assert op in OpsOf(UpdatePlan(s, b, a, []));
    m :| m in Remade(s, b, a, []) && op == RulesOf(m);
    RemadeIsMachine(s, b, a, m);
    assert m in MachinesOf(a, []) && supply in m.vm.supplies;
  }

  lemma {:induction false} RemadeIsMachine(s: Settings, b: Deployment, a: Deployment, m: Host)
    requires SameKind(b, a) && m in Remade(s, b, a, [])
    ensures m in MachinesOf(a, [])
  {
    RemadeOrKept(s, b, a, [], m);
  }

  /** What is looked for is done for children of the application. */
  lemma {:induction false} SoughtOnTop(s: Settings, b: Deployment, a: Deployment, p: Plan<Op>, i: Id, c: Id)
    requires Updates(s, b, a, p) && c in ComputedBy(p, i)
    ensures OpAt(p, 0, i).Some? && OpAt(p, 0, c).Some? && |OpAt(p, 0, c).value.path| == 1
    ensures OpAt(p, 0, i).value in Ops(p) && OpAt(p, 0, c).value in Ops(p)
    ensures var x, y := OpAt(p, 0, i).value, OpAt(p, 0, c).value;
            Seeks(x) && IsSought(y) && (y.ConfigureVm? ==> x.CreateFirewallRules? && exists supply :: supply in x.supplies && [supply.name] == y.path)
  {
    hide UpdatePlan, Ops, ComputedBy, Application, WellNamed, SameKind;
    ComputedIs(p, i, c);
    ActionAt(p, i);
    ActionAt(p, c);
    var x, y := OpAt(p, 0, i).value, OpAt(p, 0, c).value;
    if y.CreateEnvironment? {
      EnvironmentsOnTop(s, b, a, y);
    } else {
      var t :| t in SoughtBy(x) && Meets(y, t);
      var n :| 0 <= n < |SuppliersOf(x.supplies)| && SuppliersOf(x.supplies)[n] == t;
      assert x.supplies[n] in x.supplies;
    }
  }

  /** Actions for children that go away come before those that look for something. */
  lemma {:induction false} LeavingFirst(s: Settings, b: Deployment, a: Deployment, p: Plan<Op>, g: Graph, i: Id, j: Id)
    requires Updates(s, b, a, p) && WellFormed(g) && Realizes(g, p) && i < Size(g) && j < Size(g)
    requires InSet(OpAt(p, 0, i), op => Leaving(b, a, op)) && InSet(OpAt(p, 0, j), Seeks)
    ensures Leads(g, i, j)
  {
    hide UpdatePlan, Ops, Application, WellNamed, SameKind, WellFormed, Placed, FirstThen;
    ApplicationIs(a);
    ActionAt(p, j);
    var x, y := OpAt(p, 0, i).value, OpAt(p, 0, j).value;
    var name := ChildOfOp(s, b, a, y);
    ChildSeeks(s, b, a, name, y);
    var gone := x.path[0];
    assert [gone] <= x.path;
    DeletesFirst(s, b, a, [], [], gone, name);
    assert [] + [] + [gone] == [gone] && [] + [] + [name] == [name];
    assert ActInOrder(UpdatePlan(s, b, a, []), Below([gone]), Below([name]));
    InOrderLeads(g, p, i, j, Below([gone]), Below([name]));
  }

  lemma {:induction false} ChildSeeks(s: Settings, b: Deployment, a: Deployment, name: string, op: Op)
    requires b.Composite? && a.Composite? && op in ChildOps(s, b, a, name) && Seeks(op)
    ensures ChildByName(a.children, name).Some?
  {
    hide UpdatePlan, CreatePlan, DeletePlan;
    var was := ChildByName(b.children, name);
    if was.Some? {
      DeletionsSeekNothing(s, was.value, [name]);
    }
  }

  lemma {:induction false} InOrderLeads(g: Graph, p: Plan<Op>, i: Id, j: Id, x: OpSet, y: OpSet)
    requires WellFormed(g) && Realizes(g, p) && FirstThen(p, x, y) && InSet(OpAt(p, 0, i), x) && InSet(OpAt(p, 0, j), y)
    ensures i < Size(g) && j < Size(g) && Leads(g, i, j)
  {
    hide Placed, FirstThen, WellFormed;
    OpAtSingle(g, p, 0, Count(p), [], [], i);
    OpAtSingle(g, p, 0, Count(p), [], [], j);
    FirstThenPrecedes(p, 0, i, j, x, y);
    PrecedesLeads(g, p, 0, Count(p), [], [], i, j);
  }

  lemma {:induction false} RemovalLeads(s: Settings, b: Deployment, a: Deployment, p: Plan<Op>, g: Graph, i: Id, j: Id, t: string)
    requires Updates(s, b, a, p) && WellFormed(g) && Realizes(g, p)
    requires InSet(OpAt(p, 0, i), RemovalsAt([t])) && InSet(OpAt(p, 0, j), MakingsAt([t]))
    ensures i < Size(g) && j < Size(g) && Leads(g, i, j)
  {
    hide UpdatePlan, Application, WellNamed, SameKind, WellFormed, Placed, FirstThen;
    ApplicationIs(a);
    RemovalsFirst(s, b, a, [], [t]);
    InOrderLeads(g, p, i, j, RemovalsAt([t]), MakingsAt([t]));
  }

  /** What is looked for on a machine that is recreated is its configuration, which there is if machines are configured. */
  lemma {:induction false} RecreatedOps(s: Settings, b: Deployment, a: Deployment, t: string, op: Op)
    requires b.Composite? && a.Composite? && WellNamed(b) && WellNamed(a) && RecreatedVm(s, b, a, t)
    requires op in OpsOf(UpdatePlan(s, b, a, [])) && op.path == [t]
    ensures !op.CreateEnvironment? && (op.ConfigureVm? ==> s.configureOnCreate)
  {
    hide UpdatePlan, WellNamed, CreatePlan, DeletePlan;
    OpsOfChild(s, b, a, t, op);
    RecreatedChildOps(s, b, a, t);
    VmCreateOps(s, ChildByName(a.children, t).value, [t]);
    VmDeleteOps(s, ChildByName(b.children, t).value, [t]);
  }

  lemma {:induction false} RecreatedChildOps(s: Settings, b: Deployment, a: Deployment, t: string)
    requires b.Composite? && a.Composite? && RecreatedVm(s, b, a, t)
    ensures ChildOps(s, b, a, t) ==
      OpsOf(DeletePlan(s, ChildByName(b.children, t).value, [t])) + OpsOf(CreatePlan(s, ChildByName(a.children, t).value, [t]))
  {
    UpdateVmOps(s, ChildByName(b.children, t).value, ChildByName(a.children, t).value, [t]);
  }

  /** The removal of a recreated machine comes before what looks for its configuration, if there is no hostage. */
  lemma {:induction false} RemovalFirst(s: Settings, b: Deployment, a: Deployment, p: Plan<Op>, g: Graph, i: Id, j: Id, c: Id)
    requires Updates(s, b, a, p) && WellFormed(g) && Realizes(g, p) && c in ComputedBy(p, j)
    requires s.configureOnCreate ==> !HoldsHostages(s, b, a)
    requires OpAt(p, 0, i).Some? && OpAt(p, 0, c).Some? && |OpAt(p, 0, c).value.path| == 1
    requires var t := OpAt(p, 0, c).value.path[0];
             RecreatedVm(s, b, a, t) && OpAt(p, 0, i).value.path == [t] && Removes(OpAt(p, 0, i).value)
    ensures i < Size(g) && j < Size(g) && Leads(g, i, j)
  {
    hide UpdatePlan, Ops, Application, WellNamed, SameKind, WellFormed, Placed, RecreatedVm, ComputedBy, RulesOf;
    ApplicationIs(a);
    SoughtOnTop(s, b, a, p, j, c);
    var x, y := OpAt(p, 0, j).value, OpAt(p, 0, c).value;
    var t := y.path[0];
    assert y.path == [t];
    RecreatedOps(s, b, a, t, y);
    var supply :| supply in x.supplies && [supply.name] == y.path;
    var m := RulesAsked(s, b, a, p, x, supply);
    RulesAreOf(m);
    assert supply.name == t && !IsHostage(s, b, a, m, supply);
    RemovalLeads(s, b, a, p, g, i, j, t);
  }

  lemma {:induction false} RulesAreOf(m: Host)
    requires m.vm.Vm?
    ensures RulesOf(m).CreateFirewallRules? && RulesOf(m).path == m.path
    ensures RulesOf(m).supplies == m.vm.supplies && RulesOf(m).node == m.vm.node
  {
  }

  /** All that a group around something looked for waits for comes before what looks for it, too. */
  lemma {:induction false} DependencyShared(s: Settings, b: Deployment, a: Deployment, p: Plan<Op>, g: Graph, j: Id, c: Id, y: Id, d: Id)
    requires Updates(s, b, a, p) && g == CompiledGraph(p) && WellFormed(g) && Realizes(g, p)
    requires s.configureOnCreate ==> !HoldsHostages(s, b, a)
    requires j < Size(g) && c in g.nodes[j].computed && c < Size(g) && y < Size(g) && y != c && Under(g, c, y)
    requires d in g.nodes[y].depends && d < Size(g) && !Hollow(g, d)
    ensures Leads(g, d, j)
  {
    hide UpdatePlan, Ops, Application, WellNamed, SameKind, WellFormed, Realizes, HoldsHostages, ComputedBy, RecreatedVm, Leads, NeverAfter, Leaving;
    assert c in ComputedBy(p, j);
    ApplicationIs(a);
    SoughtOnTop(s, b, a, p, j, c);
    var i := SingleUnder(g, d);
    SingleHasOp(g, p, i);
    var t := OpAt(p, 0, c).value.path[0];
    assert OpAt(p, 0, c).value.path == [t];
    StaticLink(g, d, y);
    AroundIsGroup(g, c, y);
    if Staying(s, b, a, t)(OpAt(p, 0, i).value) {
      UpdateDeep(s, b, a, t);
      NotDeep(g, p, d, y, i, c, Staying(s, b, a, t), SoughtAt(t));
    }
    if Leaving(b, a, OpAt(p, 0, i).value) {
      LeavingFirst(s, b, a, p, g, i, j);
    } else {
      RemovalFirst(s, b, a, p, g, i, j, c);
    }
    GroupLeads(g, d, i, j);
    if Under(g, j, d) {
      InsideLeads(g, j, c, d, y);
      UpdateNever(s, b, a, []);
      NeverLeads(g, p, j, c, Seeks, IsSought);
    }
  }

  lemma {:induction false} SingleHasOp(g: Graph, p: Plan<Op>, i: Id)
    requires WellFormed(g) && Realizes(g, p) && i < Size(g) && !g.nodes[i].isGroup
    ensures OpAt(p, 0, i).Some?
  {
    hide Placed, WellFormed;
    LeafHasOp(g, p, 0, Count(p), [], [], i);
  }

  lemma {:induction false} StaticLink(g: Graph, d: Id, y: Id)
    requires WellFormed(g) && d < Size(g) && y < Size(g) && d in g.nodes[y].depends
    ensures Downstream(g, d, y) && d < y && g.up[d] == g.up[y] < Size(g) && g.nodes[y].depends != [] && Under(g, g.up[d], Root(g))
  {
    assert NodeOk(g, y);
    LinkShape(g, d, y);
  }

  lemma {:induction false} NotDeep(g: Graph, p: Plan<Op>, d: Id, y: Id, i: Id, c: Id, x: OpSet, z: OpSet)
    requires WellFormed(g) && Realizes(g, p) && d < Size(g) && y < Size(g) && i < Size(g) && c < Size(g)
    requires d in g.nodes[y].depends && Under(g, i, d) && Under(g, c, y)
    requires NeverAfter(p, x, z, GroupStep) && InSet(OpAt(p, 0, i), x) && InSet(OpAt(p, 0, c), z)
    ensures !g.nodes[y].isGroup
  {
    hide Placed, NeverAfter, NodeOk, InSet;
    StaticLink(g, d, y);
    NeverLinked(g, p, 0, Count(p), [], [], g.up[d], d, y, i, c, x, z, GroupStep);
  }

  lemma {:induction false} InsideLeads(g: Graph, j: Id, c: Id, d: Id, y: Id)
    requires WellFormed(g) && j < Size(g) && c < Size(g) && d < Size(g) && y < Size(g)
    requires Under(g, j, d) && Under(g, c, y) && Downstream(g, d, y)
    ensures Leads(g, j, c)
  {
  }

  /** An update that holds no hostages cannot wait for ever. */
  lemma {:induction false} UpdateIsFree(s: Settings, b: Deployment, a: Deployment, p: Plan<Op>)
    requires Updates(s, b, a, p) && (s.configureOnCreate ==> !HoldsHostages(s, b, a))
    ensures WellFormed(CompiledGraph(p)) && NoHostage(CompiledGraph(p))
  {
    hide Updates, HoldsHostages, WellFormed, Realizes, CompiledGraph, Hollow, Leads;
    var g := CompiledGraph(p);
    CompiledRealizes(p);
    forall j, c, y | 0 <= j < Size(g) && c in g.nodes[j].computed && c < Size(g) && 0 <= y < Size(g) && y != c && Under(g, c, y)
      ensures Shared(g, j, y)
    {
      forall d | d in g.nodes[y].depends && d < Size(g) && !Hollow(g, d) ensures Leads(g, d, j) {
        DependencyShared(s, b, a, p, g, j, c, y, d);
      }
    }
  }

  /** A plan in which what is looked for waits only for its neighbours cannot wait for ever. */
  lemma {:induction false} ShallowIsFree(p: Plan<Op>)
    requires NeverAfter(p, AnyOp, IsSought, GroupStep)
    ensures WellFormed(CompiledGraph(p)) && NoHostage(CompiledGraph(p))
  {
    hide WellFormed, Realizes, Hollow, Leads, NeverAfter;
    var g := CompiledGraph(p);
    CompiledRealizes(p);
    forall j, c, y | 0 <= j < Size(g) && c in g.nodes[j].computed && c < Size(g) && 0 <= y < Size(g) && y != c && Under(g, c, y)
      ensures Shared(g, j, y)
    {
      forall d | d in g.nodes[y].depends && d < Size(g) ensures Hollow(g, d) {
        if !Hollow(g, d) {
          var i := SingleUnder(g, d);
          SingleHasOp(g, p, i);
          ComputedIs(p, j, c);
          NotDeep(g, p, d, y, i, c, AnyOp, IsSought);
          AroundIsGroup(g, c, y);
        }
      }
    }
  }

  /** Creations and deletions cannot wait for ever. */
  lemma {:induction false} CreateAndDeleteAreFree(s: Settings, d: Deployment, path: Path)
    ensures CreatePlan(s, d, path).Some? ==>
      WellFormed(CompiledGraph(CreatePlan(s, d, path).value)) && NoHostage(CompiledGraph(CreatePlan(s, d, path).value))
    ensures DeletePlan(s, d, path).Some? ==>
      WellFormed(CompiledGraph(DeletePlan(s, d, path).value)) && NoHostage(CompiledGraph(DeletePlan(s, d, path).value))
  {
    hide NeverAfter, CreatePlan, DeletePlan, WellFormed, CompiledGraph, NoHostage;
    CreateDeep(s, d, path);
    DeletionsSeekNothing(s, d, path);
    QuietActNever(DeletePlan(s, d, path), AnyOp, IsSought, GroupStep);
    if CreatePlan(s, d, path).Some? {
      ShallowIsFree(CreatePlan(s, d, path).value);
    }
    if DeletePlan(s, d, path).Some? {
      ShallowIsFree(DeletePlan(s, d, path).value);
    }
  }
}
