/**
  The virtual machines of a deployment, which of them an update makes anew, and the
  firewall rules and removals of machines that its plan holds.
*/
module Machines {
  import opened ActionGraph
  import opened ActionTree
  import opened PlanOrder
  import opened PlanSchedule
  import opened Resources
  import opened Deployers
  import opened Convergence
  import opened UpdatePlans
  import opened LevelOrder
  import opened CompiledPlans

  datatype Host = Host(path: Path, vm: Deployment)

  predicate AllVms(ms: seq<Host>) {
    forall m | m in ms :: m.vm.Vm?
  }

  /** All virtual machines, with their paths. */
  function MachinesOf(d: Deployment, path: Path): (r: seq<Host>)
    ensures AllVms(r)
    decreases d, 0, 0
  {
    match d
    case Vm(_, _, _, _, _, _, _) => [Host(path, d)]
    case Composite(_, _, children) => MachinesOfAll(children, path)
    case _ => []
  }

  function MachinesOfAll(ds: seq<Deployment>, path: Path): (r: seq<Host>)
    ensures AllVms(r)
    decreases ds, 1, |ds|
  {
    if ds == [] then [] else MachinesOf(ds[0], path + [ds[0].name]) + MachinesOfAll(ds[1..], path)
  }

  /** The new deployment's machines that an update creates or recreates. */
  function Remade(s: Settings, b: Deployment, a: Deployment, path: Path): (r: seq<Host>)
    ensures AllVms(r)
    decreases a, 0, 0
  {
    match (b, a)
    case (Vm(_, _, _, _, _, _, _), Vm(_, _, _, _, _, _, _)) => if Recreated(s, b, a, path) then [Host(path, a)] else []
    case (Composite(_, _, olds), Composite(_, _, news)) => RemadeAll(s, olds, news, path)
    case _ => []
  }

  function RemadeAll(s: Settings, olds: seq<Deployment>, news: seq<Deployment>, path: Path): (r: seq<Host>)
    ensures AllVms(r)
    decreases news, 1, |news|
  {
    if news == [] then []
    else
      var here, b := path + [news[0].name], ChildByName(olds, news[0].name);
      (if b.None? then MachinesOf(news[0], here) else Remade(s, b.value, news[0], here)) + RemadeAll(s, olds, news[1..], path)
  }

  /** The new deployment's machines that an update keeps. */
  function Kept(s: Settings, b: Deployment, a: Deployment, path: Path): (r: seq<Host>)
    ensures AllVms(r)
    decreases a, 0, 0
  {
    match (b, a)
    case (Vm(_, _, _, _, _, _, _), Vm(_, _, _, _, _, _, _)) => if Recreated(s, b, a, path) then [] else [Host(path, a)]
    case (Composite(_, _, olds), Composite(_, _, news)) => KeptAll(s, olds, news, path)
    case _ => []
  }

  function KeptAll(s: Settings, olds: seq<Deployment>, news: seq<Deployment>, path: Path): (r: seq<Host>)
    ensures AllVms(r)
    decreases news, 1, |news|
  {
    if news == [] then []
    else
      var here, b := path + [news[0].name], ChildByName(olds, news[0].name);
      (if b.None? then [] else Kept(s, b.value, news[0], here)) + KeptAll(s, olds, news[1..], path)
  }

  /** Each machine is either made anew or kept. */
  lemma {:induction false} RemadeOrKept(s: Settings, b: Deployment, a: Deployment, path: Path, m: Host)
    requires SameKind(b, a)
    ensures m in MachinesOf(a, path) <==> m in Remade(s, b, a, path) || m in Kept(s, b, a, path)
    decreases a, 0, 0
  {
    match (b, a) {
      case (Vm(_, _, _, _, _, _, _), Vm(_, _, _, _, _, _, _)) =>
      case (Environment(_, _), Environment(_, _)) =>
      case (External(_), External(_)) =>
      case (Composite(_, _, olds), Composite(_, _, news)) =>
        RemadeOrKeptAll(s, olds, news, path, m);
    }
  }

  lemma {:induction false} RemadeOrKeptAll(s: Settings, olds: seq<Deployment>, news: seq<Deployment>, path: Path, m: Host)
    requires forall c :: c in news ==> SameKindAs(olds, c)
    ensures m in MachinesOfAll(news, path) <==> m in RemadeAll(s, olds, news, path) || m in KeptAll(s, olds, news, path)
    decreases news, 1, |news|
  {
    if news != [] {
      var b := ChildByName(olds, news[0].name);
      RemadeOrKeptAll(s, olds, news[1..], path, m);
      assert SameKindAs(olds, news[0]);
      if b.Some? {
        RemadeOrKept(s, b.value, news[0], path + [news[0].name], m);
      }
    }
  }

  /** Which part of the tree a machine made anew belongs to. */
  lemma {:induction false} RemadeBelow(s: Settings, b: Deployment, a: Deployment, path: Path, m: Host)
    requires m in Remade(s, b, a, path)
    ensures path <= m.path
    ensures b.Composite? && a.Composite? ==> exists c :: c in a.children && path + [c.name] <= m.path
    decreases a, 0, 0
  {
    if b.Composite? && a.Composite? {
      RemadeBelowAll(s, b.children, a.children, path, m);
    }
  }

  lemma {:induction false} RemadeBelowAll(s: Settings, olds: seq<Deployment>, news: seq<Deployment>, path: Path, m: Host)
    requires m in RemadeAll(s, olds, news, path)
    ensures exists c :: c in news && path + [c.name] <= m.path
    ensures path <= m.path
    decreases news, 1, |news|
  {
    var here, b := path + [news[0].name], ChildByName(olds, news[0].name);
    if m in RemadeAll(s, olds, news[1..], path) {
      RemadeBelowAll(s, olds, news[1..], path, m);
      var c :| c in news[1..] && path + [c.name] <= m.path;
      assert c in news;
    } else {
      if b.None? {
        MachinesBelow(news[0], here, m);
      } else {
        RemadeBelow(s, b.value, news[0], here, m);
      }
      assert news[0] in news && path <= here;
    }
  }

  lemma {:induction false} MachinesBelow(d: Deployment, path: Path, m: Host)
    requires m in MachinesOf(d, path)
    ensures path <= m.path
    decreases d, 0, 0
  {
    if d.Composite? {
      MachinesBelowAll(d.children, path, m);
    }
  }

  lemma {:induction false} MachinesBelowAll(ds: seq<Deployment>, path: Path, m: Host)
    requires m in MachinesOfAll(ds, path)
    ensures path <= m.path
    decreases ds, 1, |ds|
  {
    if m in MachinesOfAll(ds[1..], path) {
      MachinesBelowAll(ds[1..], path, m);
    } else {
      MachinesBelow(ds[0], path + [ds[0].name], m);
      assert path <= path + [ds[0].name];
    }
  }

  // ------------------------------------------------------------------------
  // The rules that plans make
  // ------------------------------------------------------------------------

  /** The action that makes the firewall rules of a machine. */
  function RulesOf(m: Host): Op
    requires m.vm.Vm?
  {
    CreateFirewallRules(m.path, m.vm.rules, m.vm.node, m.vm.supplies)
  }

  /** Some of the machines asks its supplier for this rule. */
  predicate WantedBy(ms: seq<Host>, r: Resource)
    requires AllVms(ms)
  {
    exists m | m in ms :: Allows(RulesOf(m), r)
  }

  /** Of the actions that make firewall rules, the list holds those of these machines, if there are firewalls. */
  ghost predicate RulesAre(s: Settings, ops: seq<Op>, ms: seq<Host>)
    requires AllVms(ms)
  {
    forall op: Op :: op.CreateFirewallRules? ==> (op in ops <==> s.firewalled && exists m :: m in ms && op == RulesOf(m))
  }

  lemma {:induction false} RulesJoin(s: Settings, x: seq<Op>, y: seq<Op>, m: seq<Host>, n: seq<Host>)
    requires AllVms(m) && AllVms(n) && RulesAre(s, x, m) && RulesAre(s, y, n)
    ensures RulesAre(s, x + y, m + n)
  {
    forall op: Op | op.CreateFirewallRules?
      ensures op in x + y <==> s.firewalled && exists k :: k in m + n && op == RulesOf(k)
    {
      if k :| k in m && op == RulesOf(k) {
        assert k in m + n;
      }
      if k :| k in n && op == RulesOf(k) {
        assert k in m + n;
      }
    }
  }

  lemma {:induction false} NoRules(s: Settings, ops: seq<Op>)
    requires forall op :: op in ops ==> !op.CreateFirewallRules?
    ensures RulesAre(s, ops, [])
  {
  }

  lemma {:induction false} CreateVmRules(s: Settings, d: Deployment, path: Path)
    requires d.Vm?
    ensures RulesAre(s, OpsOf(CreatePlan(s, d, path)), [Host(path, d)])
  {
    hide CreatePlan;
    VmCreateOps(s, d, path);
    var m := Host(path, d);
    forall op: Op | op.CreateFirewallRules?
      ensures op in OpsOf(CreatePlan(s, d, path)) <==> s.firewalled && exists k :: k in [m] && op == RulesOf(k)
    {
      assert m in [m];
    }
  }

  lemma {:induction false} HooksMakeNoRules(s: Settings, before: Option<Service>, after: Option<Service>, path: Path)
    ensures RulesAre(s, OpsOf(AfterCreated(s, after, path)), []) && RulesAre(s, OpsOf(AfterUpdated(s, before, after, path)), [])
  {
    hide AfterCreated, AfterUpdated, ServiceActions, AfterDeleted;
    HookOps(s, after, path);
    HookOps(s, before, path);
    UpdateHookOps(s, before, after, path);
    if after.Some? {
      ServiceOps(s, after.value, ProxyOf(before, after.value), path);
    }
  }

  /** A creation makes the rules of all machines. */
  lemma {:induction false} CreateRules(s: Settings, d: Deployment, path: Path)
    ensures RulesAre(s, OpsOf(CreatePlan(s, d, path)), MachinesOf(d, path))
    decreases d, 0, 0
  {
    hide RulesAre, GenerateComposite, AfterCreated, CreateMachine;
    match d {
      case Vm(_, _, _, _, _, _, _) =>
        CreateVmRules(s, d, path);
      case Environment(_, attributes) =>
        NoRules(s, [CreateEnvironment(path, attributes)]);
      case External(_) =>
        NoRules(s, []);
      case Composite(_, service, children) =>
        CreateAllRules(s, children, path);
        HooksMakeNoRules(s, None, service, path);
        var ops, hook := Flat(CreateAll(s, children, path)), OpsOf(AfterCreated(s, service, path));
        OpsOfComposite(CreateAll(s, children, path), None, AfterCreated(s, service, path));
        RulesJoin(s, ops, hook, MachinesOfAll(children, path), []);
        assert [] + ops + hook == ops + hook && MachinesOfAll(children, path) + [] == MachinesOfAll(children, path);
    }
  }

  lemma {:induction false} CreateAllRules(s: Settings, ds: seq<Deployment>, path: Path)
    ensures RulesAre(s, Flat(CreateAll(s, ds, path)), MachinesOfAll(ds, path))
    decreases ds, 1, |ds|
  {
    hide RulesAre;
    if ds == [] {
      NoRules(s, []);
    } else {
      var here := path + [ds[0].name];
      CreateRules(s, ds[0], here);
      CreateAllRules(s, ds[1..], path);
      FlatCons(CreatePlan(s, ds[0], here), CreateAll(s, ds[1..], path));
      RulesJoin(s, OpsOf(CreatePlan(s, ds[0], here)), Flat(CreateAll(s, ds[1..], path)), MachinesOf(ds[0], here), MachinesOfAll(ds[1..], path));
    }
  }

  lemma {:induction false} DeleteRules(s: Settings, d: Deployment, path: Path)
    ensures RulesAre(s, OpsOf(DeletePlan(s, d, path)), [])
  {
    DeletionsRemove(s, d, path);
  }

  function NoHosts(): (r: seq<Host>)
    ensures AllVms(r)
  {
    []
  }

  lemma {:induction false} DeleteOldRules(s: Settings, olds: seq<Deployment>, news: seq<Deployment>, path: Path)
    ensures RulesAre(s, OpsAll(NonNull(DeleteOld(s, olds, news, path))), [])
    decreases |olds|
  {
    hide RulesAre;
    FlatNonNull(DeleteOld(s, olds, news, path));
    if olds == [] {
      NoRules(s, []);
    } else {
      var here := path + [olds[0].name];
      var first := if ChildByName(news, olds[0].name).Some? then None else DeletePlan(s, olds[0], here);
      DeleteOldRules(s, olds[1..], news, path);
      FlatNonNull(DeleteOld(s, olds[1..], news, path));
      DeleteRules(s, olds[0], here);
      NoRules(s, []);
      FlatCons(first, DeleteOld(s, olds[1..], news, path));
      RulesJoin(s, OpsOf(first), Flat(DeleteOld(s, olds[1..], news, path)), [], []);
      assert NoHosts() + NoHosts() == NoHosts();
    }
  }

  lemma {:induction false} UpdateMachineRules(s: Settings, b: Deployment, a: Deployment, path: Path)
    requires b.Vm? && a.Vm?
    ensures RulesAre(s, OpsOf(UpdateMachine(s, b, a, path)), Remade(s, b, a, path))
  {
    hide CreatePlan, DeletePlan, UpdateMachine;
    UpdateVmOps(s, b, a, path);
    if Recreated(s, b, a, path) {
      DeleteRules(s, b, path);
      CreateVmRules(s, a, path);
      RulesJoin(s, OpsOf(DeletePlan(s, b, path)), OpsOf(CreatePlan(s, a, path)), [], [Host(path, a)]);
    }
  }

  lemma {:induction false} RecreatedEnvironmentRules(s: Settings, path: Path, attributes: string)
    ensures RulesAre(s, OpsOf(Some(ActionSequence([Act(DeleteEnvironment(path)), Act(CreateEnvironment(path, attributes))]))), [])
  {
    OpsOfTwo(Act(DeleteEnvironment(path)), Act(CreateEnvironment(path, attributes)));
  }

  /** An update makes the rules of the machines that it makes anew. */
  lemma {:induction false} UpdateRules(s: Settings, b: Deployment, a: Deployment, path: Path)
    ensures RulesAre(s, OpsOf(UpdatePlan(s, b, a, path)), Remade(s, b, a, path))
    decreases a, 0, 0
  {
    hide RulesAre, GenerateComposite, LevelActions, AfterUpdated, UpdateMachine;
    NoRules(s, []);
    match (b, a) {
      case (Vm(_, _, _, _, _, _, _), Vm(_, _, _, _, _, _, _)) =>
        UpdateMachineRules(s, b, a, path);
      case (Environment(_, _), Environment(_, attributes)) =>
        RecreatedEnvironmentRules(s, path, attributes);
      case (Composite(_, bService, olds), Composite(_, aService, news)) =>
        UpdateOps(s, b, a, path);
        LevelRules(s, olds, news, path);
        HooksMakeNoRules(s, bService, aService, path);
        RulesJoin(s, LevelOps(s, olds, news, path), OpsOf(AfterUpdated(s, bService, aService, path)), RemadeAll(s, olds, news, path), []);
        assert RemadeAll(s, olds, news, path) + [] == RemadeAll(s, olds, news, path);
      case _ =>
    }
  }

  lemma {:induction false} LevelRules(s: Settings, olds: seq<Deployment>, news: seq<Deployment>, path: Path)
    ensures RulesAre(s, LevelOps(s, olds, news, path), RemadeAll(s, olds, news, path))
    decreases news, 2, 0
  {
    hide UpdateAll, CreateNew, DeleteOld, NonNull, OpsAll, RemadeAll;
    var ms := RemadeAll(s, olds, news, path);
    MakesRules(s, olds, news, path);
    DeleteOldRules(s, olds, news, path);
    var u, c := OpsAll(UpdateAll(s, olds, news, path)), OpsAll(NonNull(CreateNew(s, olds, news, path)));
    var d := OpsAll(NonNull(DeleteOld(s, olds, news, path)));
    forall op: Op | op.CreateFirewallRules?
      ensures op in LevelOps(s, olds, news, path) <==> s.firewalled && exists m :: m in ms && op == RulesOf(m)
    {
      assert op in u + c <==> s.firewalled && exists m :: m in ms && op == RulesOf(m);
      assert op !in d;
    }
  }

  /** The updates and the creations of a level together. */
  lemma {:induction false} MakesRules(s: Settings, olds: seq<Deployment>, news: seq<Deployment>, path: Path)
    ensures RulesAre(s, OpsAll(UpdateAll(s, olds, news, path)) + OpsAll(NonNull(CreateNew(s, olds, news, path))),
              RemadeAll(s, olds, news, path))
    decreases news, 1, |news|
  {
    hide RulesAre, Ops;
    FlatNonNull(CreateNew(s, olds, news, path));
    if news == [] {
      NoRules(s, []);
      assert NoOps() + NoOps() == NoOps();
    } else {
      var here, b := path + [news[0].name], ChildByName(olds, news[0].name);
      var u, c := OpsAll(UpdateAll(s, olds, news[1..], path)), Flat(CreateNew(s, olds, news[1..], path));
      MakesRules(s, olds, news[1..], path);
      FlatNonNull(CreateNew(s, olds, news[1..], path));
      UpdateAllFirst(s, olds, news, path);
      var update := if b.None? then [] else OpsOf(UpdatePlan(s, b.value, news[0], here));
      var create := if b.Some? then None else CreatePlan(s, news[0], here);
      FlatCons(create, CreateNew(s, olds, news[1..], path));
      var first := FirstRemade(s, b, news[0], here);
      RulesJoin(s, update + OpsOf(create), u + c, first, RemadeAll(s, olds, news[1..], path));
      RulesRegroup(s, update, u, OpsOf(create), c, first + RemadeAll(s, olds, news[1..], path));
    }
  }

  function NoOps(): seq<Op> {
    []
  }

  /** What is made anew of one child. */
  lemma {:induction false} FirstRemade(s: Settings, b: Option<Deployment>, a: Deployment, path: Path) returns (ms: seq<Host>)
    ensures AllVms(ms) && ms == if b.None? then MachinesOf(a, path) else Remade(s, b.value, a, path)
    ensures RulesAre(s, (if b.None? then [] else OpsOf(UpdatePlan(s, b.value, a, path)))
                        + OpsOf(if b.Some? then None else CreatePlan(s, a, path)), ms)
    decreases a, 1
  {
    hide RulesAre, Ops, UpdatePlan, CreatePlan;
    if b.None? {
      CreateRules(s, a, path);
      ms := MachinesOf(a, path);
      assert NoOps() + OpsOf(CreatePlan(s, a, path)) == OpsOf(CreatePlan(s, a, path));
    } else {
      UpdateRules(s, b.value, a, path);
      ms := Remade(s, b.value, a, path);
      assert OpsOf(UpdatePlan(s, b.value, a, path)) + NoOps() == OpsOf(UpdatePlan(s, b.value, a, path));
    }
  }

  lemma {:induction false} RulesRegroup(s: Settings, x: seq<Op>, u: seq<Op>, y: seq<Op>, c: seq<Op>, ms: seq<Host>)
    requires AllVms(ms) && RulesAre(s, (x + y) + (u + c), ms)
    ensures RulesAre(s, (x + u) + (y + c), ms)
  {
    forall op: Op | op.CreateFirewallRules?
      ensures op in (x + u) + (y + c) <==> s.firewalled && exists m :: m in ms && op == RulesOf(m)
    {
      assert op in (x + u) + (y + c) <==> op in (x + y) + (u + c);
    }
  }
}
