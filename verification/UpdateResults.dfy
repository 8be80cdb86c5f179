/**
  What creations, deletions and updates of an application leave behind: whatever interleaving the engine chooses,
  a successful update takes the world of the old deployment to that of the new one exactly when a condition on
  the two deployments holds.
*/
module UpdateResults {
  import opened ActionGraph
  import opened ActionInvariant
  import opened ActionRuns
  import opened ActionStuck
  import opened ActionSettle
  import opened ActionHold
  import opened ActionTree
  import opened PlanOrder
  import opened PlanNumbers
  import opened PlanSchedule
  import opened PlanSteps
  import opened Resources
  import opened Deployers
  import opened Convergence
  import opened UpdatePlans
  import opened LevelOrder
  import opened CompiledPlans
  import opened Machines
  import opened Hostages
  import opened HostageRuns
  import opened FirewallRules

  // ------------------------------------------------------------------------
  // Which machines an update removes
  // ------------------------------------------------------------------------

  function RemovalOf(t: string): OpSet {
    (op: Op) => op == DeleteVm([t])
  }

  lemma {:induction false} NotAmongNone(ops: seq<Op>, t: string)
    ensures NoneOf(ops, RemovalOf(t)) <==> DeleteVm([t]) !in ops
  {
    if DeleteVm([t]) in ops {
      var n :| 0 <= n < |ops| && ops[n] == DeleteVm([t]);
      assert RemovalOf(t)(ops[n]);
    }
  }

  lemma {:induction false} HookRemovesNone(s: Settings, before: Option<Service>, after: Option<Service>, path: Path, t: string)
    ensures NoneOf(OpsOf(AfterUpdated(s, before, after, path)), RemovalOf(t)) && NoneOf(OpsOf(AfterDeleted(s, after, path)), RemovalOf(t))
  {
    HooksOnProxy(s, before, after, path);
    NotAmongNone(OpsOf(AfterUpdated(s, before, after, path)), t);
    NotAmongNone(OpsOf(AfterDeleted(s, after, path)), t);
  }

  /** Deleting a composite removes no machine at its own place. */
  lemma {:induction false} DeleteAllElsewhere(s: Settings, ds: seq<Deployment>, t: string)
    ensures NoneOf(Flat(DeleteAll(s, ds, [t])), RemovalOf(t))
    decreases |ds|
  {
    hide NoneOf, DeletePlan;
    if ds == [] {
      NoneOfNothing(RemovalOf(t));
    } else {
      var here := [t] + [ds[0].name];
      var ops := OpsOf(DeletePlan(s, ds[0], here));
      DeleteWithin(s, ds[0], here);
      BelowRemovesNone(ops, t, ds[0].name);
      DeleteAllElsewhere(s, ds[1..], t);
      NoneOfJoin(ops, Flat(DeleteAll(s, ds[1..], [t])), RemovalOf(t));
    }
  }

  lemma {:induction false} BelowRemovesNone(ops: seq<Op>, t: string, name: string)
    requires Within(ops, [t] + [name])
    ensures NoneOf(ops, RemovalOf(t))
  {
    forall n | 0 <= n < |ops| ensures ops[n] != DeleteVm([t]) {
      assert [t] + [name] <= ops[n].path;
    }
  }

  lemma {:induction false} DeletedVm(s: Settings, d: Deployment, t: string)
    ensures DeleteVm([t]) in OpsOf(DeletePlan(s, d, [t])) <==> d.Vm?
  {
    hide NoneOf, GenerateComposite, AfterDeleted;
    match d {
      case Vm(_, _, _, _, _, _, _) => VmDeleteOps(s, d, [t]);
      case Environment(_, _) =>
      case External(_) =>
      case Composite(_, service, children) =>
        var ops, hook := Flat(DeleteAll(s, children, [t])), OpsOf(AfterDeleted(s, service, [t]));
        OpsOfComposite(DeleteAll(s, children, [t]), None, AfterDeleted(s, service, [t]));
        assert [] + ops + hook == ops + hook;
        DeleteAllElsewhere(s, children, t);
        HookRemovesNone(s, None, service, [t], t);
        NoneOfJoin(Flat(DeleteAll(s, children, [t])), OpsOf(AfterDeleted(s, service, [t])), RemovalOf(t));
        NotAmongNone(OpsOf(DeletePlan(s, d, [t])), t);
    }
  }

  lemma {:induction false} CreatedVm(s: Settings, d: Deployment, path: Path, t: string)
    ensures DeleteVm([t]) !in OpsOf(CreatePlan(s, d, path))
  {
    CreateRemovesNothing(s, d, path, [t]);
  }

  /** Updating a composite removes no machine at its own place. */
  lemma {:induction false} UpdatedComposite(s: Settings, b: Deployment, a: Deployment, t: string)
    requires b.Composite? && a.Composite? && WellNamed(b) && WellNamed(a) && SameKind(b, a)
    ensures DeleteVm([t]) !in OpsOf(UpdatePlan(s, b, a, [t]))
  {
    hide UpdatePlan, Named, CreateNew, DeleteOld, UpdateAll, NonNull, AfterUpdated, OpsAll, NoneOf;
    var olds, news, y := b.children, a.children, RemovalOf(t);
    UpdateOps(s, b, a, [t]);
    HookRemovesNone(s, b.service, a.service, [t], t);
    var u := UpdateAllNamed(s, olds, news, [t]);
    var c := CreateNewNamed(s, olds, news, [t]);
    var d := DeleteOldNamed(s, olds, news, [t]);
    NamedNotAt(UpdateAll(s, olds, news, [t]), [t], u, y);
    NamedNotAt(NonNull(CreateNew(s, olds, news, [t])), [t], c, y);
    NamedNotAt(NonNull(DeleteOld(s, olds, news, [t])), [t], d, y);
    LevelNoneOf(s, olds, news, [t], y);
    NoneOfJoin(LevelOps(s, olds, news, [t]), OpsOf(AfterUpdated(s, b.service, a.service, [t])), y);
    NotAmongNone(OpsOf(UpdatePlan(s, b, a, [t])), t);
  }

  lemma {:induction false} UpdatedVm(s: Settings, b: Deployment, a: Deployment, t: string)
    requires WellNamed(b) && WellNamed(a) && SameKind(b, a)
    ensures DeleteVm([t]) in OpsOf(UpdatePlan(s, b, a, [t])) <==> b.Vm? && Recreated(s, b, a, [t])
  {
    match (b, a) {
      case (Vm(_, _, _, _, _, _, _), Vm(_, _, _, _, _, _, _)) =>
        hide UpdateMachine, CreatePlan, DeletePlan;
        UpdateVmOps(s, b, a, [t]);
        DeletedVm(s, b, t);
      case (Environment(_, _), Environment(_, attributes)) =>
        OpsOfTwo(Act(DeleteEnvironment([t])), Act(CreateEnvironment([t], attributes)));
      case (External(_), External(_)) =>
      case (Composite(_, _, _), Composite(_, _, _)) =>
        UpdatedComposite(s, b, a, t);
    }
  }

  /** An update deletes the machines that it removes or recreates. */
  lemma {:induction false} RemovedIff(s: Settings, b: Deployment, a: Deployment, t: string)
    requires b.Composite? && a.Composite? && WellNamed(b) && WellNamed(a) && SameKind(b, a)
    ensures DeleteVm([t]) in OpsOf(UpdatePlan(s, b, a, [])) <==> RemovedVm(s, b, a, t)
  {
    hide UpdatePlan, CreatePlan, DeletePlan, Recreated, WellNamed, SameKind;
    OpsOfChild(s, b, a, t, DeleteVm([t]));
    var was, now := ChildByName(b.children, t), ChildByName(a.children, t);
    if was.Some? && now.Some? {
      KindsOfChild(b, a, t);
      UpdatedVm(s, was.value, now.value, t);
    } else if was.Some? {
      DeletedVm(s, was.value, t);
    } else if now.Some? {
      CreatedVm(s, now.value, [t], t);
    }
  }

  lemma {:induction false} KindsOfChild(b: Deployment, a: Deployment, t: string)
    requires b.Composite? && a.Composite? && WellNamed(b) && WellNamed(a) && SameKind(b, a)
    requires ChildByName(b.children, t).Some? && ChildByName(a.children, t).Some?
    ensures var was, now := ChildByName(b.children, t).value, ChildByName(a.children, t).value;
            WellNamed(was) && WellNamed(now) && SameKind(was, now) && was.Vm? == now.Vm?
  {
    SameKindChild(b, a, t);
  }

  /** The machine that holds the rule is made anew, and asks for it itself. */
  predicate MadeAgain(s: Settings, b: Deployment, a: Deployment, r: Resource)
    requires b.Composite? && a.Composite?
  {
    exists m | m in Remade(s, b, a, []) :: m.path == r.path && Allows(RulesOf(m), r)
  }

  predicate Loose(s: Settings, b: Deployment, a: Deployment, m: Host, supply: Supply)
    requires b.Composite? && a.Composite?
  {
    IsHostage(s, b, a, m, supply) && m.vm.Vm? && !MadeAgain(s, b, a, RuleFor(m.vm.node, supply))
  }

  /**
    Where machines are not configured, nothing orders the removal of a recreated machine and the rules that others make
    on it: a rule can get lost if only others make it.
  */
  ghost predicate LosesRules(s: Settings, b: Deployment, a: Deployment)
    requires b.Composite? && a.Composite?
  {
    s.firewalled && !s.configureOnCreate && exists m, supply :: Loose(s, b, a, m, supply)
  }

  /** A rule that an update makes is made after all that revokes it. */
  lemma {:induction false} UpdateMakesLast(s: Settings, b: Deployment, a: Deployment, p: Plan<Op>, r: RuleResource)
    requires Updates(s, b, a, p) && !LosesRules(s, b, a)
    ensures WellFormed(CompiledGraph(p)) && MadeLast(CompiledGraph(p), p, r)
  {
    hide Updates, WellFormed, Realizes, CompiledGraph, LosesRules, EndsBefore, Allows;
    var g := CompiledGraph(p);
    CompiledRealizes(p);
    forall k | 0 <= k < Size(g) && MakesAt(p, k, r) ensures exists j :: MadeAfter(g, p, r, j) {
      if i :| 0 <= i < Size(g) && RevokesAt(p, i, r) {
        var j := MakerAfter(s, b, a, p, g, r, i, k);
        forall i' | 0 <= i' < Size(g) && RevokesAt(p, i', r) ensures EndsBefore(g, i', j) {
          RevokeEndsBefore(s, b, a, p, g, r, i', j);
        }
        assert MadeAfter(g, p, r, j);
      } else {
        assert MadeAfter(g, p, r, k);
      }
    }
  }

  /** Who makes the rule after it was revoked: anyone who waits for the new machine, or that machine itself. */
  lemma {:induction false} MakerAfter(s: Settings, b: Deployment, a: Deployment, p: Plan<Op>, g: Graph, r: RuleResource, i: Id, k: Id)
    returns (j: Id)
    requires Updates(s, b, a, p) && !LosesRules(s, b, a)
    requires g == CompiledGraph(p) && WellFormed(g) && Realizes(g, p) && i < Size(g) && k < Size(g)
    requires RevokesAt(p, i, r) && MakesAt(p, k, r)
    ensures j < Size(g) && MakesAt(p, j, r) && (s.configureOnCreate || OpAt(p, 0, j).value.path == r.path)
  {
    hide UpdatePlan, Ops, Application, WellNamed, SameKind, WellFormed, Realizes, RecreatedVm, CompiledGraph, Remade, RulesOf;
    ActionAt(p, i);
    ActionAt(p, k);
    var y := OpAt(p, 0, k).value;
    var supply :| supply in y.supplies && r == RuleFor(y.node, supply);
    var t := supply.name;
    var m := RulesAsked(s, b, a, p, y, supply);
    RulesAreOf(m);
    j := k;
    if !s.configureOnCreate && m.path != [t] {
      ApplicationIs(a);
      RemovedIff(s, b, a, t);
      assert IsHostage(s, b, a, m, supply) && r == RuleFor(m.vm.node, supply);
      assert !Loose(s, b, a, m, supply);
      var m' :| m' in Remade(s, b, a, []) && m'.path == r.path && Allows(RulesOf(m'), r);
      RulesAreOf(m');
      UpdateRules(s, b, a, []);
      assert RulesOf(m') in Ops(p);
      j := OpHasNumber(p, RulesOf(m'));
      assert MakesAt(p, j, r);
      PlanSize(p, g, j);
    }
  }

  lemma {:induction false} PlanSize(p: Plan<Op>, g: Graph, j: Id)
    requires Realizes(g, p) && OpAt(p, 0, j).Some?
    ensures j < Size(g) && !g.nodes[j].isGroup
  {
    OpAtSingle(g, p, 0, Count(p), [], [], j);
  }

  lemma {:induction false} RevokeEndsBefore(s: Settings, b: Deployment, a: Deployment, p: Plan<Op>, g: Graph, r: RuleResource, i: Id, j: Id)
    requires Updates(s, b, a, p)
    requires g == CompiledGraph(p) && WellFormed(g) && Realizes(g, p) && i < Size(g) && j < Size(g)
    requires RevokesAt(p, i, r) && MakesAt(p, j, r) && (s.configureOnCreate || OpAt(p, 0, j).value.path == r.path)
    ensures EndsBefore(g, i, j)
  {
    hide UpdatePlan, Ops, Application, WellNamed, SameKind, WellFormed, Realizes, RecreatedVm, ComputedBy, CompiledGraph, Leads, Remade, RulesOf;
    ApplicationIs(a);
    ActionAt(p, i);
    ActionAt(p, j);
    var x, y := OpAt(p, 0, i).value, OpAt(p, 0, j).value;
    var supply :| supply in y.supplies && r == RuleFor(y.node, supply);
    var t := supply.name;
    var m := RulesAsked(s, b, a, p, y, supply);
    RulesAreOf(m);
    RemovedIff(s, b, a, t);
    assert x == DeleteVm([t]) && RecreatedVm(s, b, a, t);
    if m.path == [t] {
      RemovalLeads(s, b, a, p, g, i, j, t);
    } else {
      RecreatedHas(s, b, a, p, t);
      SuppliersHave(y.supplies, supply);
      var c, k := FoundIsComputed(p, j, ConfigurationOf([t]));
      RemovalLeads(s, b, a, p, g, i, c, t);
      ComputedEndsBefore(p, g, i, c, j);
    }
  }

  lemma {:induction false} SuppliersHave(supplies: seq<Supply>, supply: Supply)
    requires supply in supplies
    ensures ConfigurationOf([supply.name]) in SuppliersOf(supplies)
  {
    var n :| 0 <= n < |supplies| && supplies[n] == supply;
    assert SuppliersOf(supplies)[n] == ConfigurationOf([supply.name]);
  }

  lemma {:induction false} ComputedEndsBefore(p: Plan<Op>, g: Graph, i: Id, c: Id, j: Id)
    requires g == CompiledGraph(p) && WellFormed(g) && Realizes(g, p) && i < Size(g) && j < Size(g) && c < Size(g)
    requires Leads(g, i, c) && c in ComputedBy(p, j) && OpAt(p, 0, c).Some?
    ensures EndsBefore(g, i, j)
  {
    hide Placed, Leads, ComputedBy;
    OpAtSingle(g, p, 0, Count(p), [], [], c);
  }

  // ------------------------------------------------------------------------
  // What is described, and when it is reached
  // ------------------------------------------------------------------------

  /** A resource as the deployment describes it: behind a firewall there is a rule for each machine that asks for one. */
  function Shown(s: Settings, d: Deployment, r: Resource): Option<Value> {
    if r.part.Rule? then (if s.firewalled && WantedBy(MachinesOf(d, []), r) then Some(Allowed) else None)
    else At(s, d, [], r)
  }

  /** The world holds of each resource what the deployment says, and nothing else. */
  ghost predicate Shows(s: Settings, w: World, d: Deployment) {
    forall r :: Get(w, r) == Shown(s, d, r)
  }

  /** The world after the actions of a run, in the order in which they ended. */
  ghost function WorldAfter(p: Plan<Op>, run: seq<System>, w: World): World
    requires run != []
  {
    Perform(OpsAt(p, 0, EndedWell(Log(run))), w)
  }

  /** A run of the engine on the plan, up to the moment when the plan is SUCCESSFUL. */
  ghost predicate Succeeds(p: Plan<Op>, run: seq<System>) {
    var g := CompiledGraph(p);
    WellFormed(g) && IsRun(g, run) && run[|run| - 1].st[Root(g)] == Successful
  }

  /**
    A machine that is kept makes no rules: what it asks for must be there, asked for before with the same node, on
    a machine that is kept; or be made by another machine. And on a machine that is kept no rule goes away: all that
    was asked for must still be.
  */
  predicate RulesReachable(s: Settings, b: Deployment, a: Deployment)
    requires b.Composite? && a.Composite?
  {
    s.firewalled ==>
      && (forall m, supply | m in Kept(s, b, a, []) && supply in m.vm.supplies :: StillThere(s, b, a, m, supply))
      && (forall m, supply | m in MachinesOf(b, []) && supply in m.vm.supplies :: StillAsked(s, b, a, m, supply))
  }

  predicate StillThere(s: Settings, b: Deployment, a: Deployment, m: Host, supply: Supply)
    requires b.Composite? && a.Composite? && m.vm.Vm?
  {
    var r := RuleFor(m.vm.node, supply);
    WantedBy(Remade(s, b, a, []), r) || (WantedBy(MachinesOf(b, []), r) && !RemovedVm(s, b, a, supply.name))
  }

  predicate StillAsked(s: Settings, b: Deployment, a: Deployment, m: Host, supply: Supply)
    requires b.Composite? && a.Composite? && m.vm.Vm?
  {
    RemovedVm(s, b, a, supply.name) || WantedBy(MachinesOf(a, []), RuleFor(m.vm.node, supply))
  }

  /** The condition under which an update reaches the new deployment. */
  predicate Reachable(s: Settings, b: Deployment, a: Deployment)
    requires b.Composite? && a.Composite?
  {
    OwnReachable(s, b, a, []) && RulesReachable(s, b, a)
  }

  // ------------------------------------------------------------------------
  // The rules that an update leaves
  // ------------------------------------------------------------------------

  /** What an update leaves of a rule. */
  function RuleLeft(s: Settings, b: Deployment, a: Deployment, r: Resource): bool
    requires b.Composite? && a.Composite?
  {
    s.firewalled &&
      (WantedBy(Remade(s, b, a, []), r) ||
       (WantedBy(MachinesOf(b, []), r) && !(|r.path| == 1 && RemovedVm(s, b, a, r.path[0]))))
  }

  lemma {:induction false} WantedFor(ms: seq<Host>, r: Resource) returns (m: Host, supply: Supply)
    requires AllVms(ms) && WantedBy(ms, r)
    ensures m in ms && supply in m.vm.supplies && r == RuleFor(m.vm.node, supply)
  {
    m :| m in ms && Allows(RulesOf(m), r);
    supply :| supply in m.vm.supplies && r == RuleFor(m.vm.node, supply);
  }

  lemma {:induction false} WantedIs(ms: seq<Host>, m: Host, supply: Supply)
    requires AllVms(ms) && m in ms && supply in m.vm.supplies
    ensures WantedBy(ms, RuleFor(m.vm.node, supply))
  {
    assert Allows(RulesOf(m), RuleFor(m.vm.node, supply));
  }

  lemma {:induction false} WantedOfAll(s: Settings, b: Deployment, a: Deployment, r: Resource)
    requires SameKind(b, a)
    ensures WantedBy(MachinesOf(a, []), r) <==> WantedBy(Remade(s, b, a, []), r) || WantedBy(Kept(s, b, a, []), r)
  {
    hide RulesOf, Allows, MachinesOf, Remade, Kept;
    forall m ensures m in MachinesOf(a, []) <==> m in Remade(s, b, a, []) || m in Kept(s, b, a, []) {
      RemadeOrKept(s, b, a, [], m);
    }
  }

  /** All rules are left as wanted exactly under the condition. */
  lemma {:induction false} RulesReached(s: Settings, b: Deployment, a: Deployment)
    requires b.Composite? && a.Composite? && SameKind(b, a)
    ensures RulesReachable(s, b, a) <==>
      forall r: RuleResource :: RuleLeft(s, b, a, r) == (s.firewalled && WantedBy(MachinesOf(a, []), r))
  {
    hide MachinesOf, Remade, Kept, RemovedVm, WantedBy, SameKind;
    if s.firewalled {
      if RulesReachable(s, b, a) {
        forall r: RuleResource ensures RuleLeft(s, b, a, r) == WantedBy(MachinesOf(a, []), r) {
          RuleReached(s, b, a, r);
        }
      }
      if forall r: RuleResource :: RuleLeft(s, b, a, r) == WantedBy(MachinesOf(a, []), r) {
        RulesAreReachable(s, b, a);
      }
    }
  }

  lemma {:induction false} RuleReached(s: Settings, b: Deployment, a: Deployment, r: RuleResource)
    requires b.Composite? && a.Composite? && SameKind(b, a) && s.firewalled && RulesReachable(s, b, a)
    ensures RuleLeft(s, b, a, r) == WantedBy(MachinesOf(a, []), r)
  {
    hide MachinesOf, Remade, Kept, RemovedVm, WantedBy, SameKind;
    WantedOfAll(s, b, a, r);
    if WantedBy(Kept(s, b, a, []), r) {
      var m, supply := WantedFor(Kept(s, b, a, []), r);
      assert StillThere(s, b, a, m, supply);
    }
    if WantedBy(MachinesOf(b, []), r) {
      var m, supply := WantedFor(MachinesOf(b, []), r);
      assert StillAsked(s, b, a, m, supply);
    }
  }

  lemma {:induction false} RulesAreReachable(s: Settings, b: Deployment, a: Deployment)
    requires b.Composite? && a.Composite? && SameKind(b, a) && s.firewalled
    requires forall r: RuleResource :: RuleLeft(s, b, a, r) == WantedBy(MachinesOf(a, []), r)
    ensures RulesReachable(s, b, a)
  {
    hide MachinesOf, Remade, Kept, RemovedVm, WantedBy, SameKind;
    forall m, supply | m in Kept(s, b, a, []) && supply in m.vm.supplies
      ensures StillThere(s, b, a, m, supply)
    {
      var r: RuleResource := RuleFor(m.vm.node, supply);
      WantedIs(Kept(s, b, a, []), m, supply);
      WantedOfAll(s, b, a, r);
      assert RuleLeft(s, b, a, r) == WantedBy(MachinesOf(a, []), r);
    }
    forall m, supply | m in MachinesOf(b, []) && supply in m.vm.supplies
      ensures StillAsked(s, b, a, m, supply)
    {
      var r: RuleResource := RuleFor(m.vm.node, supply);
      WantedIs(MachinesOf(b, []), m, supply);
      assert RuleLeft(s, b, a, r) == WantedBy(MachinesOf(a, []), r);
    }
  }

  lemma {:induction false} RulesIn(s: Settings, ops: seq<Op>, ms: seq<Host>, r: RuleResource)
    requires AllVms(ms) && RulesAre(s, ops, ms)
    ensures (exists op :: op in ops && Allows(op, r)) <==> s.firewalled && WantedBy(ms, r)
  {
    hide RulesOf;
    if op :| op in ops && Allows(op, r) {
      var m :| m in ms && op == RulesOf(m);
    }
    if s.firewalled && WantedBy(ms, r) {
      var m :| m in ms && Allows(RulesOf(m), r);
      RulesAreOf(m);
      assert RulesOf(m) in ops;
    }
  }

  lemma {:induction false} RevokedIn(ops: seq<Op>, r: RuleResource)
    ensures (exists op :: op in ops && Revokes(op, r)) <==> DeleteVm(r.path) in ops
  {
    if DeleteVm(r.path) in ops {
      assert Revokes(DeleteVm(r.path), r);
    }
  }

  /** What a successful update leaves of a rule. */
  lemma {:induction false} UpdateLeavesRule(s: Settings, b: Deployment, a: Deployment, p: Plan<Op>, run: seq<System>, w: World, r: RuleResource)
    requires Updates(s, b, a, p) && !LosesRules(s, b, a) && Succeeds(p, run) && Shows(s, w, b)
    requires Completed(CompiledGraph(p), p, run)
    ensures Get(WorldAfter(p, run, w), r) == if RuleLeft(s, b, a, r) then Some(Allowed) else None
  {
    hide UpdatePlan, Ops, Application, WellNamed, SameKind, Completed, CompiledGraph, LosesRules, Remade, MachinesOf, WantedBy, MadeLast, RemovedVm, RulesAre;
    ApplicationIs(a);
    UpdateMakesLast(s, b, a, p, r);
    RuleOutcome(CompiledGraph(p), p, run, w, r);
    UpdateRules(s, b, a, []);
    RulesIn(s, Ops(p), Remade(s, b, a, []), r);
    RevokedIn(Ops(p), r);
    assert Get(w, r) == Shown(s, b, r);
    if WantedBy(MachinesOf(b, []), r) {
      var m, supply := WantedFor(MachinesOf(b, []), r);
      assert r.path == [supply.name];
      RemovedIff(s, b, a, supply.name);
    }
  }

  // ------------------------------------------------------------------------
  // Main results
  // ------------------------------------------------------------------------

  lemma {:induction false} SoundCompleted(p: Plan<Op>, run: seq<System>)
    requires Sound(p) && Succeeds(p, run)
    ensures Completed(CompiledGraph(p), p, run)
  {
    hide Realizes, CompiledGraph;
    CompiledRealizes(p);
    TamePlanTameGraph(CompiledGraph(p), p);
  }

  /** Where a completed run leaves a resource other than a rule. */
  lemma {:induction false} PlainOutcome(p: Plan<Op>, run: seq<System>, w: World, r: PlainResource)
    requires Completed(CompiledGraph(p), p, run)
    ensures Get(WorldAfter(p, run, w), r) == Trail(Ops(p), r, Get(w, r))
  {
    hide Completed, CompiledGraph;
    InterleavingsAgree(CompiledGraph(p), p, run, w, r);
    PerformTrail(Ops(p), w, r);
  }

  lemma {:induction false} NothingRevoked(p: Plan<Op>, r: RuleResource)
    requires WellFormed(CompiledGraph(p)) && !exists op :: op in Ops(p) && Revokes(op, r)
    ensures MadeLast(CompiledGraph(p), p, r)
  {
    hide CompiledGraph;
    var g := CompiledGraph(p);
    forall i ensures !RevokesAt(p, i, r) {
      if OpAt(p, 0, i).Some? {
        ActionAt(p, i);
      }
    }
    forall k | 0 <= k < Size(g) && MakesAt(p, k, r) ensures exists j :: MadeAfter(g, p, r, j) {
      assert MadeAfter(g, p, r, k);
    }
  }

  lemma {:induction false} NothingAllowed(p: Plan<Op>, r: RuleResource)
    requires WellFormed(CompiledGraph(p)) && !exists op :: op in Ops(p) && Allows(op, r)
    ensures MadeLast(CompiledGraph(p), p, r)
  {
    hide CompiledGraph, Allows;
    forall i ensures !MakesAt(p, i, r) {
      if OpAt(p, 0, i).Some? {
        ActionAt(p, i);
      }
    }
  }

  lemma {:induction false} CreationLeavesRule(s: Settings, d: Deployment, p: Plan<Op>, run: seq<System>, r: RuleResource)
    requires CreatePlan(s, d, []) == Some(p) && Completed(CompiledGraph(p), p, run)
    ensures Get(WorldAfter(p, run, map[]), r) == Shown(s, d, r)
  {
    hide CreatePlan, Completed, CompiledGraph, MachinesOf, WantedBy, MadeLast, RulesAre;
    CompiledRealizes(p);
    CreateRules(s, d, []);
    RulesIn(s, Ops(p), MachinesOf(d, []), r);
    RevokedIn(Ops(p), r);
    CreateRemovesNothing(s, d, [], r.path);
    MakesOnly(Ops(p), r.path);
    NothingRevoked(p, r);
    RuleOutcome(CompiledGraph(p), p, run, map[], r);
  }

  lemma {:induction false} MakesOnly(ops: seq<Op>, path: Path)
    ensures DeleteVm(path) in ops ==> !NoneOf(ops, RemovalsAt(path))
  {
    if DeleteVm(path) in ops {
      SomeOf(ops, DeleteVm(path), RemovalsAt(path));
    }
  }

  /** Every successful run of a creation plan takes the empty world to what the deployment describes. */
  lemma {:induction false} CreationConverges(s: Settings, d: Deployment, run: seq<System>)
    requires WellNamed(d) && CreatePlan(s, d, []).Some? && Succeeds(CreatePlan(s, d, []).value, run)
    ensures Shows(s, WorldAfter(CreatePlan(s, d, []).value, run, map[]), d)
  {
    hide CreatePlan, Completed, CompiledGraph, Shown, WorldAfter, WellNamed, At;
    var p := CreatePlan(s, d, []).value;
    CreateSound(s, d, []);
    SoundCompleted(p, run);
    forall r ensures Get(WorldAfter(p, run, map[]), r) == Shown(s, d, r) {
      if r.part.Rule? {
        CreationLeavesRule(s, d, p, run, r);
      } else {
        PlainOutcome(p, run, map[], r);
        CreateLeaves(s, d, [], r);
        ShownPlain(s, d, r);
      }
    }
  }

  lemma {:induction false} ShownPlain(s: Settings, d: Deployment, r: PlainResource)
    ensures Shown(s, d, r) == At(s, d, [], r)
  {
  }

  /** A deletion deletes all machines that are children of the application. */
  lemma {:induction false} DeletesChildren(s: Settings, ds: seq<Deployment>, t: string)
    requires IsVmChild(ds, t)
    ensures DeleteVm([t]) in Flat(DeleteAll(s, ds, []))
    decreases |ds|
  {
    hide DeletePlan;
    if ds[0].name == t {
      assert [] + [t] == [t];
      DeletedVm(s, ds[0], t);
    } else {
      DeletesChildren(s, ds[1..], t);
    }
  }

  lemma {:induction false} DeletionLeavesRule(s: Settings, d: Deployment, p: Plan<Op>, run: seq<System>, w: World, r: RuleResource)
    requires d.Composite? && Linked(d) && DeletePlan(s, d, []) == Some(p) && Completed(CompiledGraph(p), p, run) && Shows(s, w, d)
    ensures Get(WorldAfter(p, run, w), r) == None
  {
    hide DeletePlan, Completed, CompiledGraph, MachinesOf, WantedBy, MadeLast, RulesAre, GenerateComposite;
    CompiledRealizes(p);
    DeleteRules(s, d, []);
    RulesIn(s, Ops(p), NoHosts(), r);
    NoHostsWant(r);
    NothingAllowed(p, r);
    RuleOutcome(CompiledGraph(p), p, run, w, r);
    assert Get(w, r) == Shown(s, d, r);
    if WantedBy(MachinesOf(d, []), r) {
      var m, supply := WantedFor(MachinesOf(d, []), r);
      DeletionRevokes(s, d, p, m, supply);
      RevokedIn(Ops(p), r);
    }
  }

  lemma {:induction false} NoHostsWant(r: Resource)
    ensures !WantedBy(NoHosts(), r)
  {
  }

  lemma {:induction false} DeletionRevokes(s: Settings, d: Deployment, p: Plan<Op>, m: Host, supply: Supply)
    requires d.Composite? && Linked(d) && DeletePlan(s, d, []) == Some(p) && m in MachinesOf(d, []) && supply in m.vm.supplies
    ensures DeleteVm([supply.name]) in Ops(p)
  {
    hide GenerateComposite, AfterDeleted, DeleteAll, Flat, MachinesOf, IsVmChild;
    DeletesChildren(s, d.children, supply.name);
    OpsOfComposite(DeleteAll(s, d.children, []), None, AfterDeleted(s, d.service, []));
  }

  /** Every successful run of the deletion of an application leaves nothing of it. */
  lemma {:induction false} DeletionConverges(s: Settings, d: Deployment, run: seq<System>, w: World)
    requires d.Composite? && WellNamed(d) && Linked(d) && DeletePlan(s, d, []).Some? && Shows(s, w, d)
    requires Succeeds(DeletePlan(s, d, []).value, run)
    ensures WorldAfter(DeletePlan(s, d, []).value, run, w) == map[]
  {
    hide DeletePlan, Completed, CompiledGraph, WorldAfter, WellNamed, Linked, At;
    var p := DeletePlan(s, d, []).value;
    var w' := WorldAfter(p, run, w);
    DeleteSound(s, d, []);
    SoundCompleted(p, run);
    forall r ensures Get(w', r) == None {
      if r.part.Rule? {
        DeletionLeavesRule(s, d, p, run, w, r);
      } else {
        assert Get(w, r) == Shown(s, d, r);
        PlainOutcome(p, run, w, r);
        DeleteLeaves(s, d, [], r);
        ShownPlain(s, d, r);
      }
    }
    assert forall r :: r !in w' by {
      forall r ensures r !in w' {
        assert Get(w', r) == None;
      }
    }
  }

  /** The resources other than rules, and the rules, are left as described. */
  lemma {:induction false} LeftAsDescribed(s: Settings, b: Deployment, a: Deployment, w': World)
    requires b.Composite? && a.Composite? && WellNamed(b) && WellNamed(a) && SameKind(b, a)
    requires forall r: PlainResource :: Get(w', r) == Left(s, b, a, [], r)
    requires forall r: RuleResource :: Get(w', r) == if RuleLeft(s, b, a, r) then Some(Allowed) else None
    ensures Shows(s, w', a) <==> Reachable(s, b, a)
  {
    hide Left, At, RuleLeft, RulesReachable, OwnReachable, WellNamed, SameKind, WantedBy, MachinesOf;
    RulesReached(s, b, a);
    if Reachable(s, b, a) {
      forall r ensures Get(w', r) == Shown(s, a, r) {
        if r.part.Rule? {
          var rule: RuleResource := r;
          assert RuleLeft(s, b, a, rule) == (s.firewalled && WantedBy(MachinesOf(a, []), rule));
        } else {
          ReachableLeft(s, b, a, [], r);
        }
      }
    }
    if !OwnReachable(s, b, a, []) {
      var r := UnreachableLeft(s, b, a, []);
      assert Get(w', r) != Shown(s, a, r);
    }
    if Shows(s, w', a) {
      forall r: RuleResource ensures RuleLeft(s, b, a, r) == (s.firewalled && WantedBy(MachinesOf(a, []), r)) {
        assert Get(w', r) == Shown(s, a, r);
      }
    }
  }

  /**
    Update plans converge: whatever interleaving the engine chose, a successful update takes the world of the old
    application to that of the new one exactly when `Reachable` holds, unless rules can get lost.
  */
  lemma {:induction false} UpdateConverges(s: Settings, b: Deployment, a: Deployment, p: Plan<Op>, run: seq<System>, w: World)
    requires Updates(s, b, a, p) && !LosesRules(s, b, a)
    requires Succeeds(p, run) && Shows(s, w, b)
    ensures Shows(s, WorldAfter(p, run, w), a) <==> Reachable(s, b, a)
  {
    hide UpdatePlan, Application, WellNamed, SameKind, Completed, CompiledGraph, LosesRules, WorldAfter, Reachable, RuleLeft, Left, At;
    var w' := WorldAfter(p, run, w);
    ApplicationIs(a);
    UpdateSound(s, b, a, []);
    SoundCompleted(p, run);
    forall r: PlainResource ensures Get(w', r) == Left(s, b, a, [], r) {
      PlainOutcome(p, run, w, r);
      ShownPlain(s, b, r);
      assert Get(w, r) == Shown(s, b, r);
      UpdateLeaves(s, b, a, [], r);
    }
    forall r: RuleResource ensures Get(w', r) == if RuleLeft(s, b, a, r) then Some(Allowed) else None {
      UpdateLeavesRule(s, b, a, p, run, w, r);
    }
    LeftAsDescribed(s, b, a, w');
  }

  // ------------------------------------------------------------------------
  // Rules that can get lost
  // ------------------------------------------------------------------------

  /** The action is one for child `t`, or comes after one. */
  ghost predicate After(g: Graph, p: Plan<Op>, t: string, i: Id)
    requires WellFormed(g) && i < Size(g)
  {
    InSet(OpAt(p, 0, i), Below([t]))
    || exists f: Id :: f < Size(g) && !g.nodes[f].isGroup && InSet(OpAt(p, 0, f), Below([t])) && Leads(g, f, i)
  }

  ghost function NotAfter(g: Graph, p: Plan<Op>, t: string): (r: set<Id>)
    requires WellFormed(g)
    ensures forall i: Id :: i in r <==> i < Size(g) && !g.nodes[i].isGroup && !After(g, p, t, i)
  {
    set i: Id | 0 <= i < Size(g) && !g.nodes[i].isGroup && !After(g, p, t, i)
  }

  /** What is for other children comes after nothing of a recreated machine. */
  lemma {:induction false} OthersNotAfter(s: Settings, b: Deployment, a: Deployment, p: Plan<Op>, g: Graph, t: string, i: Id)
    requires Updates(s, b, a, p) && WellFormed(g) && Realizes(g, p) && RecreatedVm(s, b, a, t)
    requires InSet(OpAt(p, 0, i), ForOthers(t))
    ensures i in NotAfter(g, p, t)
  {
    hide UpdatePlan, Application, WellNamed, SameKind, RecreatedVm, Placed, NeverAfter, Leads, NotAfter;
    ApplicationIs(a);
    RecreatedApart(s, b, a, t);
    PlanSize(p, g, i);
    assert !InSet(OpAt(p, 0, i), Below([t]));
    forall f: Id | f < Size(g) && InSet(OpAt(p, 0, f), Below([t])) ensures !Leads(g, f, i) {
      NeverLeads(g, p, f, i, Below([t]), ForOthers(t));
    }
  }

  lemma {:induction false} AfterThen(g: Graph, p: Plan<Op>, t: string, i: Id, j: Id)
    requires WellFormed(g) && i < Size(g) && !g.nodes[i].isGroup && j < Size(g) && After(g, p, t, i) && Leads(g, i, j)
    ensures After(g, p, t, j)
  {
    hide Leads;
    if !InSet(OpAt(p, 0, i), Below([t])) {
      var f: Id :| f < Size(g) && !g.nodes[f].isGroup && InSet(OpAt(p, 0, f), Below([t])) && Leads(g, f, i);
      LeadsThen(g, f, i, j);
    }
  }

  /** Where machines are not configured, nothing else waits for a recreated one. */
  lemma {:induction false} NotAfterCloses(s: Settings, b: Deployment, a: Deployment, p: Plan<Op>, g: Graph, t: string)
    requires Updates(s, b, a, p) && !s.configureOnCreate && RecreatedVm(s, b, a, t)
    requires g == CompiledGraph(p) && WellFormed(g) && Realizes(g, p)
    ensures Closed(g, NotAfter(g, p, t))
  {
    hide UpdatePlan, Application, WellNamed, SameKind, RecreatedVm, Placed, Leads, After, ComputedBy, CompiledGraph;
    var ks := NotAfter(g, p, t);
    forall x: Id, c: Id | x in ks && x < Size(g) && c < Size(g) && !g.nodes[c].isGroup && Before(g, c, x) ensures c in ks {
      if Leads(g, c, x) {
        if After(g, p, t, c) {
          AfterThen(g, p, t, c, x);
        }
      } else {
        ComputedIs(p, g, x, c);
        SoughtOnTop(s, b, a, p, x, c);
        var y := OpAt(p, 0, c).value;
        if [t] <= y.path {
          ApplicationIs(a);
          assert y.path == [t];
          RecreatedOps(s, b, a, t, y);
        } else {
          OthersNotAfter(s, b, a, p, g, t, c);
        }
      }
    }
  }

  lemma {:induction false} ComputedIs(p: Plan<Op>, g: Graph, x: Id, c: Id)
    requires g == CompiledGraph(p) && WellFormed(g) && x < Size(g) && c in g.nodes[x].computed
    ensures c in ComputedBy(p, x)
  {
  }

  /** If a rule is loose, some successful run of the update loses it. */
  lemma {:induction false} RuleGetsLost(s: Settings, b: Deployment, a: Deployment, p: Plan<Op>, w: World, m: Host, supply: Supply)
    returns (run: seq<System>)
    requires Updates(s, b, a, p) && s.firewalled && !s.configureOnCreate && Loose(s, b, a, m, supply)
    ensures Succeeds(p, run) && !Shows(s, WorldAfter(p, run, w), a)
  {
    hide UpdatePlan, Application, WellNamed, SameKind, WellFormed, Realizes, RecreatedVm, CompiledGraph, Remade, RulesOf, Closed, Acyclic, Tame, Completed, NotAfter, MadeAgain, Ops;
    var g, t: string, r: RuleResource := CompiledGraph(p), supply.name, RuleFor(m.vm.node, supply);
    ApplicationIs(a);
    CompiledUpdate(s, b, a, p);
    NotAfterCloses(s, b, a, p, g, t);
    run := TheseEndFirst(g, NotAfter(g, p, t));
    UpdateSound(s, b, a, []);
    SoundCompleted(p, run);
    RemovedIff(s, b, a, t);
    RecreatedVms(s, b, a, t);
    var i := OpHasNumber(p, DeleteVm([t]));
    PlanSize(p, g, i);
    assert After(g, p, t, i);
    forall j | MakesAt(p, j, r) ensures FirstAt(Log(run), Ended(j, true)) < FirstAt(Log(run), Ended(i, true)) {
      ForeignMaker(s, b, a, p, g, r, t, j);
    }
    assert RevokesAt(p, i, r);
    RevokedOutcome(g, p, run, w, r, i);
    RemadeOrKept(s, b, a, [], m);
    WantedIs(MachinesOf(a, []), m, supply);
    assert Shown(s, a, r) == Some(Allowed);
  }

  lemma {:induction false} ForeignMaker(s: Settings, b: Deployment, a: Deployment, p: Plan<Op>, g: Graph, r: RuleResource, t: string, j: Id)
    requires Updates(s, b, a, p) && WellFormed(g) && Realizes(g, p) && RecreatedVm(s, b, a, t)
    requires r.path == [t] && !MadeAgain(s, b, a, r) && MakesAt(p, j, r)
    ensures j in NotAfter(g, p, t)
  {
    hide UpdatePlan, Application, WellNamed, SameKind, WellFormed, Realizes, RecreatedVm, Remade, RulesOf, NotAfter, Ops;
    ActionAt(p, j);
    var y := OpAt(p, 0, j).value;
    var supply :| supply in y.supplies && r == RuleFor(y.node, supply);
    var m := RulesAsked(s, b, a, p, y, supply);
    RulesAreOf(m);
    if [t] <= y.path {
      RecreatedPlace(s, b, a, p, t, y);
    } else {
      OthersNotAfter(s, b, a, p, g, t, j);
    }
  }

  lemma {:induction false} SomeRunSucceeds(s: Settings, b: Deployment, a: Deployment, p: Plan<Op>) returns (run: seq<System>)
    requires Updates(s, b, a, p)
    ensures Succeeds(p, run)
  {
    hide Updates, CompiledGraph, Acyclic, Tame, Follows;
    CompiledUpdate(s, b, a, p);
    run := TheseEndFirst(CompiledGraph(p), {});
  }

  /**
    An update is sure to converge, by every successful run, if and only if the new application is reachable and no rule
    can get lost: where machines are configured on creation that is `Reachable` alone.
  */
  lemma {:induction false} EveryRunConverges(s: Settings, b: Deployment, a: Deployment, p: Plan<Op>, w: World)
    requires Updates(s, b, a, p) && Shows(s, w, b)
    ensures (forall run :: Succeeds(p, run) ==> Shows(s, WorldAfter(p, run, w), a)) <==> Reachable(s, b, a) && !LosesRules(s, b, a)
  {
    hide Updates, CompiledGraph, Follows, Shows, Reachable, WorldAfter, Loose;
    UpdatesAre(s, b, a, p);
    if LosesRules(s, b, a) {
      var m, supply :| Loose(s, b, a, m, supply);
      var run := RuleGetsLost(s, b, a, p, w, m, supply);
    } else {
      forall run | Succeeds(p, run) ensures Shows(s, WorldAfter(p, run, w), a) <==> Reachable(s, b, a) {
        UpdateConverges(s, b, a, p, run, w);
      }
      var run := SomeRunSucceeds(s, b, a, p);
    }
  }

  /** Where nothing is to be done, no machine is removed or made anew. */
  lemma {:induction false} NothingLeavesRules(s: Settings, b: Deployment, a: Deployment, r: RuleResource)
    requires b.Composite? && a.Composite? && WellNamed(b) && WellNamed(a) && SameKind(b, a) && UpdatePlan(s, b, a, []).None?
    ensures RuleLeft(s, b, a, r) == (s.firewalled && WantedBy(MachinesOf(b, []), r))
  {
    hide UpdatePlan, WellNamed, SameKind, RemovedVm, MachinesOf, Remade, WantedBy, RulesAre;
    UpdateRules(s, b, a, []);
    RulesIn(s, OpsOf(UpdatePlan(s, b, a, [])), Remade(s, b, a, []), r);
    if |r.path| == 1 {
      RemovedIff(s, b, a, r.path[0]);
    }
  }

  /** When there is nothing to update, the old world shows the new application on the same condition. */
  lemma {:induction false} NothingToUpdate(s: Settings, b: Deployment, a: Deployment, w: World)
    requires b.Composite? && a.Composite? && WellNamed(b) && WellNamed(a) && SameKind(b, a)
    requires UpdatePlan(s, b, a, []).None? && Shows(s, w, b)
    ensures Shows(s, w, a) <==> Reachable(s, b, a)
  {
    hide UpdatePlan, WellNamed, SameKind, Reachable, RuleLeft, Left, At, WantedBy, MachinesOf;
    forall r: PlainResource ensures Get(w, r) == Left(s, b, a, [], r) {
      assert Get(w, r) == Shown(s, b, r);
      UpdateLeaves(s, b, a, [], r);
    }
    forall r: RuleResource ensures Get(w, r) == if RuleLeft(s, b, a, r) then Some(Allowed) else None {
      assert Get(w, r) == Shown(s, b, r);
      NothingLeavesRules(s, b, a, r);
    }
    LeftAsDescribed(s, b, a, w);
  }
}
