/** An update that holds hostages can wait for ever, and only such an update can. */
module HostageRuns {
  import opened ActionGraph
  import opened ActionInvariant
  import opened ActionRuns
  import opened ActionProgress
  import opened ActionStuck
  import opened ActionSettle
  import opened ActionHostage
  import opened ActionTree
  import opened PlanOrder
  import opened PlanNumbers
  import opened PlanSchedule
  import opened Resources
  import opened Deployers
  import opened Convergence
  import opened UpdatePlans
  import opened LevelOrder
  import opened PlanSteps
  import opened CompiledPlans
  import opened Machines
  import opened Hostages

  // ------------------------------------------------------------------------
  // What one recreated machine has to do with the rest of the plan
  // ------------------------------------------------------------------------

  /** Of an update's actions of `x`, all are for child `t`, which stays: then the plan is as the plan for `t`. */
  lemma {:induction false} OneChildNever(s: Settings, b: Deployment, a: Deployment, t: string, x: OpSet, y: OpSet, k: Step)
    requires b.Composite? && a.Composite? && WellNamed(b) && WellNamed(a) && SameKind(b, a)
    requires ChildByName(b.children, t).Some? && ChildByName(a.children, t).Some?
    requires Confined(x, [], t)
    requires ActNever(UpdatePlan(s, ChildByName(b.children, t).value, ChildByName(a.children, t).value, [t]), x, y, k)
    requires k == SingleStep || forall op :: y(op) ==> !OnProxy(op)
    ensures ActNever(UpdatePlan(s, b, a, []), x, y, k)
  {
    hide NeverAfter, NoneOf, GenerateComposite, LevelActions, NonNull, CreateNew, DeleteOld, UpdateAll, WellNamed, SameKind;
    var updates := UpdateAll(s, b.children, a.children, []);
    var creates := NonNull(CreateNew(s, b.children, a.children, []));
    var deletes := NonNull(DeleteOld(s, b.children, a.children, []));
    var hook := AfterUpdated(s, b.service, a.service, []);
    OthersNever(s, b, a, a.children, t, x, y, k);
    ElsewhereOnLevel(s, b, a, t, x);
    forall n | 0 <= n < |creates| ensures NeverAfter(creates[n], x, y, k) {
      QuietNever(creates[n], x, y, k);
    }
    LevelNever(updates, creates, deletes, x, y, k);
    HookNever(s, b.service, a.service, x, y, k, t);
    CompositeNever(LevelActions(updates, creates, deletes), hook, x, y, k);
  }

  lemma {:induction false} ElsewhereOnLevel(s: Settings, b: Deployment, a: Deployment, t: string, x: OpSet)
    requires b.Composite? && a.Composite? && WellNamed(b) && WellNamed(a) && Confined(x, [], t)
    requires ChildByName(b.children, t).Some? && ChildByName(a.children, t).Some?
    ensures forall n :: 0 <= n < |NonNull(CreateNew(s, b.children, a.children, []))| ==>
      NoneOf(Ops(NonNull(CreateNew(s, b.children, a.children, []))[n]), x)
    ensures forall n :: 0 <= n < |NonNull(DeleteOld(s, b.children, a.children, []))| ==>
      NoneOf(Ops(NonNull(DeleteOld(s, b.children, a.children, []))[n]), x)
  {
    hide Named, NonNull, CreateNew, DeleteOld, NoneOf;
    var c := CreateNewNamed(s, b.children, a.children, []);
    var d := DeleteOldNamed(s, b.children, a.children, []);
    NamedElsewhere(NonNull(CreateNew(s, b.children, a.children, [])), c, x, t);
    NamedElsewhere(NonNull(DeleteOld(s, b.children, a.children, [])), d, x, t);
  }

  lemma {:induction false} NamedElsewhere(plans: seq<Plan<Op>>, names: seq<string>, x: OpSet, t: string)
    requires Named(plans, [], names) && t !in names && Confined(x, [], t)
    ensures forall n :: 0 <= n < |plans| ==> NoneOf(Ops(plans[n]), x)
  {
    hide Sound, NoneOf;
    forall n | 0 <= n < |plans| ensures NoneOf(Ops(plans[n]), x) {
      assert names[n] in names;
      ElsewhereNone(Ops(plans[n]), x, [], t, names[n]);
    }
  }

  lemma {:induction false} HookNever(s: Settings, before: Option<Service>, after: Option<Service>, x: OpSet, y: OpSet, k: Step, t: string)
    requires Confined(x, [], t) && (k == SingleStep || forall op :: y(op) ==> !OnProxy(op))
    ensures var hook := AfterUpdated(s, before, after, []);
            ActNever(hook, x, y, k) && (hook.Some? ==> !IsStep(k, hook.value.Group?) || NoneOf(OpsOf(hook), y))
  {
    hide NeverAfter;
    var hook := AfterUpdated(s, before, after, []);
    HooksOnProxy(s, before, after, []);
    forall n | 0 <= n < |OpsOf(hook)| ensures !x(OpsOf(hook)[n]) && (k != SingleStep ==> !y(OpsOf(hook)[n])) {
      assert OpsOf(hook)[n] in OpsOf(hook);
    }
    QuietActNever(hook, x, y, k);
  }

  lemma {:induction false} OthersNever(s: Settings, b: Deployment, a: Deployment, news: seq<Deployment>, t: string, x: OpSet, y: OpSet, k: Step)
    requires b.Composite? && a.Composite? && WellNamed(b) && WellNamed(a) && SameKind(b, a)
    requires ChildByName(b.children, t).Some? && ChildByName(a.children, t).Some?
    requires Confined(x, [], t) && forall c :: c in news ==> c in a.children
    requires ActNever(UpdatePlan(s, ChildByName(b.children, t).value, ChildByName(a.children, t).value, [t]), x, y, k)
    ensures forall n :: 0 <= n < |UpdateAll(s, b.children, news, [])| ==> NeverAfter(UpdateAll(s, b.children, news, [])[n], x, y, k)
    decreases |news|
  {
    hide NeverAfter, UpdatePlan, WellNamed, SameKind, Confined;
    if news != [] {
      assert forall c :: c in news[1..] ==> c in news;
      OthersNever(s, b, a, news[1..], t, x, y, k);
      var c := news[0];
      var was := ChildByName(b.children, c.name);
      if was.Some? {
        assert c in a.children && [] + [c.name] == [c.name];
        ChildIs(a, c);
        if c.name != t {
          UpdateWithin(s, was.value, c, [c.name]);
          ElsewhereNone(OpsOf(UpdatePlan(s, was.value, c, [c.name])), x, [], t, c.name);
          QuietActNever(UpdatePlan(s, was.value, c, [c.name]), x, y, k);
        }
      }
    }
  }

  lemma {:induction false} ChildIs(a: Deployment, c: Deployment)
    requires a.Composite? && WellNamed(a) && c in a.children
    ensures ChildByName(a.children, c.name) == Some(c)
  {
    OnlyChild(a.children, c);
  }

  /** All actions but those for one child, and those but the application's own too. */
  function NotFor(t: string): OpSet {
    (op: Op) => !([t] <= op.path)
  }

  function ForOthers(t: string): OpSet {
    (op: Op) => !([t] <= op.path) && !OnProxy(op)
  }

  function ConfigurationAt(t: string): OpSet {
    (op: Op) => op.path == [t] && op.ConfigureVm?
  }

  /** The actions for a recreated machine come neither before those for others nor straight before its own configuration. */
  lemma {:induction false} RecreatedApart(s: Settings, b: Deployment, a: Deployment, t: string)
    requires b.Composite? && a.Composite? && WellNamed(b) && WellNamed(a) && SameKind(b, a) && RecreatedVm(s, b, a, t)
    ensures ActNever(UpdatePlan(s, b, a, []), Below([t]), NotFor(t), SingleStep)
    ensures ActNever(UpdatePlan(s, b, a, []), Below([t]), ForOthers(t), AnyStep)
    ensures ActNever(UpdatePlan(s, b, a, []), RemovalsAt([t]), ConfigurationAt(t), SingleStep)
  {
    hide NeverAfter, NoneOf, UpdatePlan, WellNamed, SameKind, Ops;
    var was, now := ChildByName(b.children, t).value, ChildByName(a.children, t).value;
    UpdateWithin(s, was, now, [t]);
    WithinQuiet(OpsOf(UpdatePlan(s, was, now, [t])), t);
    QuietActNever(UpdatePlan(s, was, now, [t]), Below([t]), NotFor(t), SingleStep);
    QuietActNever(UpdatePlan(s, was, now, [t]), Below([t]), ForOthers(t), AnyStep);
    RecreationNever(s, b, a, t);
    OneChildNever(s, b, a, t, Below([t]), NotFor(t), SingleStep);
    OneChildNever(s, b, a, t, Below([t]), ForOthers(t), AnyStep);
    OneChildNever(s, b, a, t, RemovalsAt([t]), ConfigurationAt(t), SingleStep);
  }

  lemma {:induction false} WithinQuiet(ops: seq<Op>, t: string)
    requires Within(ops, [t])
    ensures NoneOf(ops, NotFor(t)) && NoneOf(ops, ForOthers(t))
  {
  }

  lemma {:induction false} RecreationNever(s: Settings, b: Deployment, a: Deployment, t: string)
    requires b.Composite? && a.Composite? && RecreatedVm(s, b, a, t)
    ensures ActNever(UpdatePlan(s, ChildByName(b.children, t).value, ChildByName(a.children, t).value, [t]),
              RemovalsAt([t]), ConfigurationAt(t), SingleStep)
  {
    hide NeverAfter, NoneOf, CreateMachine;
    var was, now := ChildByName(b.children, t).value, ChildByName(a.children, t).value;
    var x, y := RemovalsAt([t]), ConfigurationAt(t);
    DeleteMakesNothing(s, was, [t], [t]);
    NoneOfNarrow(OpsOf(DeletePlan(s, was, [t])), MakingsAt([t]), y);
    CreateRemovesNothing(s, now, [t], [t]);
    QuietActNever(DeletePlan(s, was, [t]), x, y, SingleStep);
    QuietActNever(CreatePlan(s, now, [t]), x, y, SingleStep);
    PairNever(DeletePlan(s, was, [t]), CreatePlan(s, now, [t]), x, y, SingleStep);
  }

  // ------------------------------------------------------------------------
  // The run that waits for ever
  // ------------------------------------------------------------------------

  /** The single actions that are not for child `t`. */
  ghost function Others(g: Graph, p: Plan<Op>, t: string): (r: set<Id>)
    ensures forall i: Id :: i in r <==> i < Size(g) && !g.nodes[i].isGroup && InSet(OpAt(p, 0, i), NotFor(t))
  {
    set i: Id | 0 <= i < Size(g) && !g.nodes[i].isGroup && InSet(OpAt(p, 0, i), NotFor(t))
  }

  /** Recreated machine `t`; `f` removes its chef node, `c` configures it, and `a` makes rules for a machine that asks it. */
  ghost predicate Taken(s: Settings, b: Deployment, a: Deployment, p: Plan<Op>, t: string, f: Id, j: Id, c: Id) {
    && Updates(s, b, a, p) && RecreatedVm(s, b, a, t)
    && OpAt(p, 0, f) == Some(DeleteChefNode([t]))
    && OpAt(p, 0, j).Some? && Seeks(OpAt(p, 0, j).value) && !([t] <= OpAt(p, 0, j).value.path)
    && c in ComputedBy(p, j) && InSet(OpAt(p, 0, c), ConfigurationAt(t))
    && forall k :: FirstMeeting(Ops(p), ConfigurationOf([t])) == Some(k) ==> k < |Leaves(p, 0)| && Leaves(p, 0)[k] == c
  }

  lemma {:induction false} ComputedFirst(p: Plan<Op>, i: Id, e: Id) returns (k: nat, t: Sought)
    requires e in ComputedBy(p, i)
    ensures OpAt(p, 0, i).Some? && t in SoughtBy(OpAt(p, 0, i).value) && FirstMeeting(Ops(p), t) == Some(k)
    ensures k < |Leaves(p, 0)| && Leaves(p, 0)[k] == e && OpAt(p, 0, e) == Some(Ops(p)[k])
  {
    var op := OpAt(p, 0, i).value;
    var ops, leaves, ts := Ops(p), Leaves(p, 0), SoughtBy(op);
    LeavesCount(p, 0);
    var found := Found(ops, ts);
    var n :| 0 <= n < |found| && Numbers(leaves, found)[n] == e;
    k := found[n];
    assert k in found;
    FoundAre(ops, ts, k);
    var m :| 0 <= m < |ts| && FirstMeeting(ops, ts[m]) == Some(k);
    t := ts[m];
    LeafOp(p, 0, k);
  }

  /** What the others compute is among the others, or is that configuration. */
  lemma {:induction false} OthersCompute(s: Settings, b: Deployment, a: Deployment, p: Plan<Op>, g: Graph, t: string, f: Id, j: Id, c: Id, x: Id, e: Id)
    requires Taken(s, b, a, p, t, f, j, c) && WellFormed(g) && Realizes(g, p) && x in Others(g, p, t) && e in ComputedBy(p, x)
    ensures e in Others(g, p, t) || e == c
  {
    hide UpdatePlan, Application, WellNamed, SameKind, RecreatedVm, ComputedBy, Placed, Others, FirstMeeting, WellFormed;
    ApplicationIs(a);
    SoughtOnTop(s, b, a, p, x, e);
    var k, sought := ComputedFirst(p, x, e);
    var op := OpAt(p, 0, e).value;
    OpAtSingle(g, p, 0, Count(p), [], [], e);
    if [t] <= op.path {
      assert op.path == [t];
      RecreatedOps(s, b, a, t, op);
      assert Meets(op, sought);
      assert sought == ConfigurationOf([t]);
    }
  }

  lemma {:induction false} OthersStatic(p: Plan<Op>, g: Graph, t: string, x: Id, d: Id, i: Id)
    requires WellFormed(g) && Realizes(g, p) && NeverAfter(p, Below([t]), NotFor(t), SingleStep)
    requires x in Others(g, p, t) && x < Size(g) && d < Size(g) && Downstream(g, d, x) && i < Size(g) && !g.nodes[i].isGroup && Under(g, i, d)
    ensures i in Others(g, p, t)
  {
    hide Placed, NeverAfter, NodeOk, Downstream;
    SingleHasOp(g, p, i);
    if InSet(OpAt(p, 0, i), Below([t])) {
      LinkShape(g, d, x);
      assert Under(g, x, x);
      NeverLinked(g, p, 0, Count(p), [], [], g.up[d], d, x, i, x, Below([t]), NotFor(t), SingleStep);
    }
  }

  lemma {:induction false} OthersBefore(p: Plan<Op>, g: Graph, t: string, j: Id, i: Id)
    requires WellFormed(g) && Realizes(g, p) && NeverAfter(p, Below([t]), ForOthers(t), AnyStep)
    requires j < Size(g) && InSet(OpAt(p, 0, j), ForOthers(t)) && i < Size(g) && !g.nodes[i].isGroup && Leads(g, i, j)
    ensures i in Others(g, p, t)
  {
    hide Placed, NeverAfter, NodeOk, Leads;
    SingleHasOp(g, p, i);
    if InSet(OpAt(p, 0, i), Below([t])) {
      NeverLeads(g, p, i, j, Below([t]), ForOthers(t));
    }
  }

  lemma {:induction false} OthersSpared(s: Settings, b: Deployment, a: Deployment, p: Plan<Op>, g: Graph, t: string, f: Id, j: Id, c: Id)
    requires Taken(s, b, a, p, t, f, j, c) && g == CompiledGraph(p) && WellFormed(g) && Realizes(g, p) && j < Size(g) && !g.nodes[j].isGroup
    ensures Spared(g, Others(g, p, t), j, c) && f !in Others(g, p, t)
  {
    hide UpdatePlan, Application, WellNamed, SameKind, RecreatedVm, ComputedBy, Placed, WellFormed, NeverAfter, Leads, Downstream, Under, Ops;
    ApplicationIs(a);
    RecreatedApart(s, b, a, t);
    var ks := Others(g, p, t);
    forall x, e | x in ks && x < Size(g) && e in g.nodes[x].computed ensures e in ks || e == c {
      OthersCompute(s, b, a, p, g, t, f, j, c, x, e);
    }
    forall x, d, i | x in ks && x < Size(g) && 0 <= d < Size(g) && Downstream(g, d, x) && 0 <= i < Size(g) && !g.nodes[i].isGroup && Under(g, i, d)
      ensures i in ks
    {
      OthersStatic(p, g, t, x, d, i);
    }
    forall i | 0 <= i < Size(g) && !g.nodes[i].isGroup && Leads(g, i, j) ensures i in ks {
      OthersBefore(p, g, t, j, i);
    }
  }

  /** Machine `t` is removed before it is configured, in another item of a sequence. */
  lemma {:induction false} RemovedFirst(s: Settings, b: Deployment, a: Deployment, p: Plan<Op>, g: Graph, t: string, f: Id, j: Id, c: Id)
    returns (d: Id, y: Id)
    requires Taken(s, b, a, p, t, f, j, c) && WellFormed(g) && Realizes(g, p) && c < Size(g) && !g.nodes[c].isGroup
    ensures f < Size(g) && d < Size(g) && y < Size(g) && y != c && Under(g, c, y) && Downstream(g, d, y) && Under(g, f, d)
  {
    hide UpdatePlan, Application, WellNamed, SameKind, RecreatedVm, ComputedBy, Placed, NodeOk, NeverAfter, Downstream, Ops;
    ApplicationIs(a);
    RecreatedApart(s, b, a, t);
    RemovalLeads(s, b, a, p, g, f, c, t);
    d, y :| 0 <= d < Size(g) && 0 <= y < Size(g) && Under(g, f, d) && Under(g, c, y) && Downstream(g, d, y);
    if y == c {
      LinkShape(g, d, y);
      NeverLinked(g, p, 0, Count(p), [], [], g.up[d], d, y, f, c, RemovalsAt([t]), ConfigurationAt(t), SingleStep);
    }
  }

  lemma {:induction false} OpHasNumber(p: Plan<Op>, op: Op) returns (i: Id)
    requires op in Ops(p)
    ensures OpAt(p, 0, i) == Some(op)
  {
    var k :| 0 <= k < |Ops(p)| && Ops(p)[k] == op;
    LeafOp(p, 0, k);
    i := Leaves(p, 0)[k];
  }

  /** Where something that is looked for is found, it is computed. */
  lemma {:induction false} FoundIsComputed(p: Plan<Op>, i: Id, t: Sought) returns (c: Id, k: nat)
    requires OpAt(p, 0, i).Some? && t in SoughtBy(OpAt(p, 0, i).value) && exists op :: op in Ops(p) && Meets(op, t)
    ensures c in ComputedBy(p, i) && FirstMeeting(Ops(p), t) == Some(k) && k < |Leaves(p, 0)| && Leaves(p, 0)[k] == c
    ensures OpAt(p, 0, c).Some? && Meets(OpAt(p, 0, c).value, t)
  {
    var ops, leaves, ts := Ops(p), Leaves(p, 0), SoughtBy(OpAt(p, 0, i).value);
    LeavesCount(p, 0);
    var op :| op in ops && Meets(op, t);
    assert FirstMeeting(ops, t).Some?;
    k := FirstMeeting(ops, t).value;
    var m :| 0 <= m < |ts| && ts[m] == t;
    FoundAre(ops, ts, k);
    var found := Found(ops, ts);
    var n :| 0 <= n < |found| && found[n] == k;
    LeafOp(p, 0, k);
    c := leaves[k];
    assert Numbers(leaves, found)[n] == c;
  }

  lemma {:induction false} RecreatedHas(s: Settings, b: Deployment, a: Deployment, p: Plan<Op>, t: string)
    requires Updates(s, b, a, p) && RecreatedVm(s, b, a, t)
    ensures DeleteChefNode([t]) in Ops(p)
    ensures s.configureOnCreate ==> exists op :: op in Ops(p) && Meets(op, ConfigurationOf([t]))
  {
    hide UpdatePlan, CreatePlan, DeletePlan, Ops, Application, WellNamed, RecreatedVm;
    ApplicationIs(a);
    RecreatedChildOps(s, b, a, t);
    RecreatedVms(s, b, a, t);
    var was, now := ChildByName(b.children, t).value, ChildByName(a.children, t).value;
    VmDeleteOps(s, was, [t]);
    VmCreateOps(s, now, [t]);
    OpsOfChild(s, b, a, t, DeleteChefNode([t]));
    if s.configureOnCreate {
      OpsOfChild(s, b, a, t, ConfigureVm([t], now.params, s.fixed));
      assert Meets(ConfigureVm([t], now.params, s.fixed), ConfigurationOf([t]));
    }
  }

  /** All actions for a recreated machine are at its own place. */
  lemma {:induction false} RecreatedPlace(s: Settings, b: Deployment, a: Deployment, p: Plan<Op>, t: string, op: Op)
    requires Updates(s, b, a, p) && RecreatedVm(s, b, a, t) && op in Ops(p) && [t] <= op.path
    ensures op.path == [t]
  {
    hide UpdatePlan, CreatePlan, DeletePlan, Ops, Application, WellNamed, RecreatedVm;
    ApplicationIs(a);
    RecreatedChildOps(s, b, a, t);
    RecreatedVms(s, b, a, t);
    VmDeleteOps(s, ChildByName(b.children, t).value, [t]);
    VmCreateOps(s, ChildByName(a.children, t).value, [t]);
    OpsOfChild(s, b, a, t, op);
  }

  lemma {:induction false} RecreatedVms(s: Settings, b: Deployment, a: Deployment, t: string)
    requires b.Composite? && a.Composite? && RecreatedVm(s, b, a, t)
    ensures IsVmChild(b.children, t) && IsVmChild(a.children, t)
  {
  }

  lemma {:induction false} HostageIsTaken(s: Settings, b: Deployment, a: Deployment, p: Plan<Op>, m: Host, supply: Supply) returns (f: Id, j: Id, c: Id)
    requires Updates(s, b, a, p) && s.firewalled && s.configureOnCreate && IsHostage(s, b, a, m, supply)
    ensures Taken(s, b, a, p, supply.name, f, j, c)
  {
    hide UpdatePlan, CreatePlan, DeletePlan, Ops, Application, WellNamed, SameKind, RecreatedVm, Remade, ComputedBy, FirstMeeting;
    var t := supply.name;
    RecreatedHas(s, b, a, p, t);
    UpdateRules(s, b, a, []);
    assert RulesOf(m) in Ops(p);
    if [t] <= RulesOf(m).path {
      RecreatedPlace(s, b, a, p, t, RulesOf(m));
    }
    f := OpHasNumber(p, DeleteChefNode([t]));
    j := OpHasNumber(p, RulesOf(m));
    var n :| 0 <= n < |m.vm.supplies| && m.vm.supplies[n] == supply;
    assert SuppliersOf(m.vm.supplies)[n] == ConfigurationOf([t]);
    var k;
    c, k := FoundIsComputed(p, j, ConfigurationOf([t]));
  }

  /** If the removal of the machine that a hostage waits for fails, the update waits for ever. */
  lemma {:induction false} HostageWaitsForEver(s: Settings, b: Deployment, a: Deployment, p: Plan<Op>, m: Host, supply: Supply)
    returns (run: seq<System>)
    requires Updates(s, b, a, p) && s.firewalled && s.configureOnCreate && IsHostage(s, b, a, m, supply)
    ensures WellFormed(CompiledGraph(p)) && IsRun(CompiledGraph(p), run) && Fits(CompiledGraph(p), Last(run).st)
    ensures Last(run).held.None? && AtRest(CompiledGraph(p), Last(run).st)
    ensures Last(run).st[Root(CompiledGraph(p))] !in {Successful, Failed}
  {
    hide Updates, Taken, WellFormed, Realizes, CompiledGraph, Acyclic, AtRest, Spared, Tame, Others, IsRun;
    var g, t := CompiledGraph(p), supply.name;
    var f, j, c := HostageIsTaken(s, b, a, p, m, supply);
    CompiledUpdate(s, b, a, p);
    TakenSingles(s, b, a, p, g, t, f, j, c);
    OthersSpared(s, b, a, p, g, t, f, j, c);
    var d, y := RemovedFirst(s, b, a, p, g, t, f, j, c);
    run := OneFailureHangs(g, Others(g, p, t), f, j, c, d, y);
  }

  lemma {:induction false} CompiledUpdate(s: Settings, b: Deployment, a: Deployment, p: Plan<Op>)
    requires Updates(s, b, a, p)
    ensures var g := CompiledGraph(p);
            Realizes(g, p) && WellFormed(g) && Tame(g) && Acyclic(g)
  {
    hide UpdatePlan, Application, WellNamed, SameKind, CompiledGraph, Acyclic, WellFormed, Tame, Realizes, TamePlan;
    ApplicationIs(a);
    UpdateSound(s, b, a, []);
    CompiledRealizes(p);
    CompiledPlansAcyclic(s, b, a, []);
  }

  lemma {:induction false} TakenSingles(s: Settings, b: Deployment, a: Deployment, p: Plan<Op>, g: Graph, t: string, f: Id, j: Id, c: Id)
    requires Taken(s, b, a, p, t, f, j, c) && g == CompiledGraph(p) && WellFormed(g) && Realizes(g, p)
    ensures f < Size(g) && j < Size(g) && c < Size(g) && !g.nodes[f].isGroup && !g.nodes[j].isGroup && !g.nodes[c].isGroup
    ensures c in g.nodes[j].computed
  {
    hide Updates, Placed, WellFormed, ComputedBy;
    OpAtSingle(g, p, 0, Count(p), [], [], f);
    OpAtSingle(g, p, 0, Count(p), [], [], j);
    OpAtSingle(g, p, 0, Count(p), [], [], c);
  }

  /** The run has come to rest, with nothing running and nothing left to start. */
  ghost predicate Rests(g: Graph, run: seq<System>)
    requires WellFormed(g)
  {
    IsRun(g, run) && Fits(g, Last(run).st) && Last(run).held.None? && AtRest(g, Last(run).st)
  }

  lemma {:induction false} UpdatesAre(s: Settings, b: Deployment, a: Deployment, p: Plan<Op>)
    requires Updates(s, b, a, p)
    ensures b.Composite? && a.Composite? && WellNamed(b) && WellNamed(a) && SameKind(b, a) && UpdatePlan(s, b, a, []) == Some(p)
  {
  }

  /**
    Every run of an update that comes to rest is then SUCCESSFUL or FAILED if and only if no machine made anew
    asks a recreated one to let it in; or machines are not configured, or have no firewalls.
  */
  lemma {:induction false} UpdateEndsIff(s: Settings, b: Deployment, a: Deployment, p: Plan<Op>)
    requires Updates(s, b, a, p)
    ensures WellFormed(CompiledGraph(p))
    ensures !(s.configureOnCreate && HoldsHostages(s, b, a)) <==>
      forall run :: Rests(CompiledGraph(p), run) ==> Last(run).st[Root(CompiledGraph(p))] in {Successful, Failed}
  {
    hide Updates, WellFormed, Realizes, CompiledGraph, Acyclic, AtRest, Tame, IsHostage, Follows, NoHostage;
    var g := CompiledGraph(p);
    UpdatesAre(s, b, a, p);
    CompiledUpdate(s, b, a, p);
    if s.configureOnCreate && HoldsHostages(s, b, a) {
      var m, supply :| IsHostage(s, b, a, m, supply);
      var run := HostageWaitsForEver(s, b, a, p, m, supply);
    } else {
      UpdateIsFree(s, b, a, p);
      forall run | Rests(g, run) ensures Last(run).st[Root(g)] in {Successful, Failed} {
        RestIsDone(g, Last(run).st);
      }
    }
  }

  /** Whatever the deployers compile, a run of it that comes to rest without a failure is SUCCESSFUL. */
  lemma {:induction false} UnharmedPlansSucceed(s: Settings, b: Deployment, a: Deployment, p: Plan<Op>)
    requires WellNamed(b) && WellNamed(a) && SameKind(b, a)
    requires CreatePlan(s, a, []) == Some(p) || DeletePlan(s, b, []) == Some(p) || UpdatePlan(s, b, a, []) == Some(p)
    ensures WellFormed(CompiledGraph(p))
    ensures forall run :: IsRun(CompiledGraph(p), run) && RestsUnharmed(CompiledGraph(p), run) ==>
      Last(run).st[Root(CompiledGraph(p))] == Successful
  {
    hide CreatePlan, DeletePlan, UpdatePlan, WellNamed, SameKind, CompiledGraph, Acyclic, WellFormed, TamePlan, Realizes, AtRest, Follows;
    CreateSound(s, a, []);
    DeleteSound(s, b, []);
    UpdateSound(s, b, a, []);
    CompiledRealizes(p);
    CompiledPlansAcyclic(s, b, a, []);
    var g := CompiledGraph(p);
    forall run | IsRun(g, run) && RestsUnharmed(g, run) ensures Last(run).st[Root(g)] == Successful {
      RestIsDone(g, Last(run).st);
    }
  }
}
