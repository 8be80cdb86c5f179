/**
  The graph of a compiled plan with the dependencies that two kinds of actions compute: one that creates
  firewall rules waits until the machines that it opens firewalls of are configured, and one that provisions
  a machine waits for the chef environment.
*/
module CompiledPlans {
  import opened ActionGraph
  import opened ActionInvariant
  import opened ActionRuns
  import opened ActionProgress
  import opened ActionStuck
  import opened ActionTree
  import opened PlanOrder
  import opened PlanNumbers
  import opened PlanSchedule
  import opened Resources
  import opened Deployers
  import opened Convergence
  import opened UpdatePlans
  import opened LevelOrder
  import opened PlanSteps

  // ------------------------------------------------------------------------
  // What actions compute
  // ------------------------------------------------------------------------

  /** What `getDependencies` looks for among the single actions of the whole plan. */
  datatype Sought = ConfigurationOf(path: Path) | AnyEnvironment

  predicate Meets(op: Op, t: Sought) {
    match t
    case ConfigurationOf(path) => op.ConfigureVm? && op.path == path
    case AnyEnvironment => op.CreateEnvironment?
  }

  function SuppliersOf(supplies: seq<Supply>): (r: seq<Sought>)
    ensures |r| == |supplies| && forall n :: 0 <= n < |r| ==> r[n] == ConfigurationOf([supplies[n].name])
  {
    if supplies == [] then [] else [ConfigurationOf([supplies[0].name])] + SuppliersOf(supplies[1..])
  }

  /** `CreateFirewallRulesAction.getDependencies` and `ProvisionVmAction.getDependencies`, apart from the static ones. */
  function SoughtBy(op: Op): seq<Sought> {
    if op.CreateFirewallRules? then SuppliersOf(op.supplies)
    else if op.ProvisionVm? then [AnyEnvironment]
    else []
  }

  /** The place of the first action that meets the request, if any. */
  function FirstMeeting(ops: seq<Op>, t: Sought): (r: Option<nat>)
    ensures r.Some? ==> r.value < |ops| && Meets(ops[r.value], t)
    ensures r.None? ==> forall n :: 0 <= n < |ops| ==> !Meets(ops[n], t)
  {
    if ops == [] then None
    else if Meets(ops[0], t) then Some(0)
    else
      var n := FirstMeeting(ops[1..], t);
      if n.Some? then Some(n.value + 1) else None
  }

  /** The places of the actions found for some requests, in the order of the requests. */
  function Found(ops: seq<Op>, ts: seq<Sought>): (r: seq<nat>)
    ensures forall k :: k in r ==> k < |ops|
  {
    if ts == [] then []
    else
      var first := FirstMeeting(ops, ts[0]);
      (if first.Some? then [first.value] else []) + Found(ops, ts[1..])
  }

  lemma {:induction false} FoundAre(ops: seq<Op>, ts: seq<Sought>, k: nat)
    ensures k in Found(ops, ts) <==> exists n :: 0 <= n < |ts| && FirstMeeting(ops, ts[n]) == Some(k)
    decreases |ts|
  {
    if ts != [] {
      FoundAre(ops, ts[1..], k);
      if n :| 0 <= n < |ts| && FirstMeeting(ops, ts[n]) == Some(k) {
        if n > 0 {
          assert ts[1..][n - 1] == ts[n];
        }
      }
    }
  }

  /** The numbers of the single actions at some places. */
  function Numbers(leaves: seq<Id>, places: seq<nat>): (r: seq<Id>)
    requires forall k :: k in places ==> k < |leaves|
    ensures |r| == |places| && forall n :: 0 <= n < |r| ==> places[n] in places && places[n] < |leaves| && r[n] == leaves[places[n]]
  {
    assert forall n :: 0 <= n < |places| ==> places[n] in places;
    seq(|places|, n requires 0 <= n < |places| => leaves[places[n]])
  }

  lemma {:induction false} LeavesCount(p: Plan<Op>, base: nat)
    ensures |Leaves(p, base)| == |Ops(p)|
    decreases p, 0, 0
  {
    if p.Group? {
      LeavesAllCount(p.items, base);
    }
  }

  lemma {:induction false} LeavesAllCount(items: seq<Plan<Op>>, base: nat)
    ensures |LeavesAll(items, base)| == |OpsAll(items)|
    decreases items, 1, |items|
  {
    if items != [] {
      LeavesCount(items[0], base);
      LeavesAllCount(items[1..], base + Count(items[0]));
    }
  }

  /** The single action at each place. */
  lemma {:induction false} LeafOp(p: Plan<Op>, base: nat, k: nat)
    requires k < |Ops(p)|
    ensures |Leaves(p, base)| == |Ops(p)| && OpAt(p, base, Leaves(p, base)[k]) == Some(Ops(p)[k])
    decreases p, 0, 0
  {
    LeavesCount(p, base);
    if p.Group? {
      LeafOpIn(p.items, base, k);
    }
  }

  lemma {:induction false} LeafOpIn(items: seq<Plan<Op>>, base: nat, k: nat)
    requires k < |OpsAll(items)|
    ensures |LeavesAll(items, base)| == |OpsAll(items)| && OpIn(items, base, LeavesAll(items, base)[k]) == Some(OpsAll(items)[k])
    decreases items, 1, |items|
  {
    var next := base + Count(items[0]);
    LeavesAllCount(items, base);
    LeavesCount(items[0], base);
    LeavesAllCount(items[1..], next);
    if k < |Ops(items[0])| {
      LeafOp(items[0], base, k);
      LeavesShape(items[0], base);
    } else {
      LeafOpIn(items[1..], next, k - |Ops(items[0])|);
      LeavesAllShape(items[1..], next);
    }
  }

  /** The place of a single action. */
  lemma {:induction false} OpAtPlace(p: Plan<Op>, base: nat, i: Id) returns (k: nat)
    requires OpAt(p, base, i).Some?
    ensures k < |Ops(p)| == |Leaves(p, base)| && Leaves(p, base)[k] == i && Ops(p)[k] == OpAt(p, base, i).value
    decreases p, 0, 0
  {
    LeavesCount(p, base);
    if p.Group? {
      k := OpInPlace(p.items, base, i);
    } else {
      k := 0;
    }
  }

  lemma {:induction false} OpInPlace(items: seq<Plan<Op>>, base: nat, i: Id) returns (k: nat)
    requires OpIn(items, base, i).Some?
    ensures k < |OpsAll(items)| == |LeavesAll(items, base)| && LeavesAll(items, base)[k] == i
    ensures OpsAll(items)[k] == OpIn(items, base, i).value
    decreases items, 1, |items|
  {
    var next := base + Count(items[0]);
    LeavesAllCount(items, base);
    LeavesCount(items[0], base);
    if i < next {
      k := OpAtPlace(items[0], base, i);
    } else {
      k := OpInPlace(items[1..], next, i);
      k := k + |Ops(items[0])|;
    }
  }

  /** What the single action with number `i` computes. */
  function ComputedBy(p: Plan<Op>, i: Id): (r: seq<Id>)
    ensures forall c :: c in r ==> c in Leaves(p, 0)
  {
    var op := OpAt(p, 0, i);
    LeavesCount(p, 0);
    if op.None? then [] else Numbers(Leaves(p, 0), Found(Ops(p), SoughtBy(op.value)))
  }

  /** The graph of the plan with all dependencies. */
  function CompiledGraph(p: Plan<Op>): (g: Graph)
    ensures |g.nodes| == |g.up| == Count(p)
  {
    var g := ToGraph(p);
    Graph(seq(|g.nodes|, i requires 0 <= i < |g.nodes| => g.nodes[i].(computed := ComputedBy(p, i))), g.up)
  }

  /** Computed dependencies do not matter to where a plan lies. */
  lemma {:induction false} PlacedAlike<T>(g: Graph, g': Graph, p: Plan<T>, base: nat, up: Id, depends: seq<Id>, requiredBy: seq<Id>)
    requires Placed(g, p, base, up, depends, requiredBy) && |g'.nodes| == |g.nodes| && g'.up == g.up
    requires forall i :: 0 <= i < |g.nodes| ==> g'.nodes[i] == g.nodes[i].(computed := g'.nodes[i].computed)
    ensures Placed(g', p, base, up, depends, requiredBy)
    decreases p, 0, 0
  {
    if p.Group? {
      PlacedAllAlike(g, g', p.inSequence, p.items, base, base + Count(p) - 1, []);
    }
  }

  lemma {:induction false} PlacedAllAlike<T>(g: Graph, g': Graph, inSequence: bool, items: seq<Plan<T>>, base: nat, up: Id, depends: seq<Id>)
    requires PlacedAll(g, inSequence, items, base, up, depends) && |g'.nodes| == |g.nodes| && g'.up == g.up
    requires forall i :: 0 <= i < |g.nodes| ==> g'.nodes[i] == g.nodes[i].(computed := g'.nodes[i].computed)
    ensures PlacedAll(g', inSequence, items, base, up, depends)
    decreases items, 1, |items|
  {
    if items != [] {
      var root := base + Count(items[0]) - 1;
      PlacedAlike(g, g', items[0], base, up, depends, After(inSequence, items, root));
      PlacedAllAlike(g, g', inSequence, items[1..], root + 1, up, Link(inSequence, root));
    }
  }

  lemma {:induction false} LeafIsSingle(g: Graph, p: Plan<Op>, i: Id)
    requires Placed(g, p, 0, Count(p), [], []) && i in Leaves(p, 0)
    ensures i < Size(g) && !g.nodes[i].isGroup && OpAt(p, 0, i).Some?
  {
    LeavesCount(p, 0);
    var k :| 0 <= k < |Leaves(p, 0)| && Leaves(p, 0)[k] == i;
    LeafOp(p, 0, k);
    OpAtSingle(g, p, 0, Count(p), [], [], i);
  }

  lemma {:induction false} GroupHasNoOp(g: Graph, p: Plan<Op>, i: Id)
    requires Placed(g, p, 0, Count(p), [], []) && OpAt(p, 0, i).Some?
    ensures i < Size(g) && !g.nodes[i].isGroup
  {
    OpAtSingle(g, p, 0, Count(p), [], [], i);
  }

  /** The compiled graph is a graph of the plan. */
  lemma {:induction false} CompiledRealizes(p: Plan<Op>)
    ensures Realizes(CompiledGraph(p), p) && WellFormed(CompiledGraph(p))
    ensures TamePlan(p) ==> Tame(CompiledGraph(p))
  {
    hide Placed, ToGraph, TamePlan;
    var g := CompiledGraph(p);
    PlanHasGraph(p);
    PlacedAlike(ToGraph(p), g, p, 0, Count(p), [], []);
    forall i | 0 <= i < Size(g)
      ensures g.nodes[i].isGroup ==> g.nodes[i].computed == []
      ensures forall c :: c in g.nodes[i].computed ==> c < Size(g) && !g.nodes[c].isGroup
    {
      if OpAt(p, 0, i).Some? {
        GroupHasNoOp(g, p, i);
      }
      forall c | c in g.nodes[i].computed ensures c < Size(g) && !g.nodes[c].isGroup {
        LeafIsSingle(g, p, c);
      }
    }
    PlanWellFormed(g, p);
    if TamePlan(p) {
      TamePlanTameGraph(g, p);
    }
  }

  // ------------------------------------------------------------------------
  // The order of a compiled plan has no cycle
  // ------------------------------------------------------------------------

  /** The actions that compute dependencies, and those they look for. */
  predicate Seeks(op: Op) {
    op.CreateFirewallRules? || op.ProvisionVm?
  }

  predicate IsSought(op: Op) {
    op.ConfigureVm? || op.CreateEnvironment?
  }

  /** What is computed is there because it was looked for. */
  lemma {:induction false} ComputedIs(p: Plan<Op>, i: Id, c: Id)
    requires c in ComputedBy(p, i)
    ensures InSet(OpAt(p, 0, i), Seeks) && InSet(OpAt(p, 0, c), IsSought)
    ensures exists t :: t in SoughtBy(OpAt(p, 0, i).value) && Meets(OpAt(p, 0, c).value, t)
  {
    var op := OpAt(p, 0, i).value;
    var ops, leaves, ts := Ops(p), Leaves(p, 0), SoughtBy(op);
    LeavesCount(p, 0);
    var found := Found(ops, ts);
    var n :| 0 <= n < |found| && Numbers(leaves, found)[n] == c;
    assert found[n] in found;
    FoundAre(ops, ts, found[n]);
    var m :| 0 <= m < |ts| && FirstMeeting(ops, ts[m]) == Some(found[n]);
    LeafOp(p, 0, found[n]);
    assert ts[m] in ts && Meets(OpAt(p, 0, c).value, ts[m]);
  }

  /** An action that looks for something, or comes after one that does. */
  ghost predicate Late(g: Graph, p: Plan<Op>, i: Id)
    requires WellFormed(g) && i < Size(g)
  {
    exists u :: 0 <= u < Size(g) && InSet(OpAt(p, 0, u), Seeks) && (u == i || Leads(g, u, i))
  }

  lemma {:induction false} LateStays(g: Graph, p: Plan<Op>, b: Id, a: Id)
    requires WellFormed(g) && b < Size(g) && a < Size(g) && Leads(g, b, a) && Late(g, p, b)
    ensures Late(g, p, a)
  {
    hide Leads;
    var u :| 0 <= u < Size(g) && InSet(OpAt(p, 0, u), Seeks) && (u == b || Leads(g, u, b));
    if u != b {
      LeadsThen(g, u, b, a);
    }
  }

  lemma {:induction false} SoughtIsNotLate(g: Graph, p: Plan<Op>, c: Id)
    requires WellFormed(g) && Realizes(g, p) && c < Size(g)
    requires NeverAfter(p, Seeks, IsSought, AnyStep) && InSet(OpAt(p, 0, c), IsSought)
    ensures !Late(g, p, c)
  {
    hide Leads, NeverAfter, Realizes;
    if Late(g, p, c) {
      var u :| 0 <= u < Size(g) && InSet(OpAt(p, 0, u), Seeks) && (u == c || Leads(g, u, c));
      NeverLeads(g, p, u, c, Seeks, IsSought);
    }
  }

  /** Nothing is looked for after an action that looks for something: then the order has no cycle. */
  lemma {:induction false} CompiledAcyclic(p: Plan<Op>)
    requires NeverAfter(p, Seeks, IsSought, AnyStep)
    ensures WellFormed(CompiledGraph(p)) && Acyclic(CompiledGraph(p))
  {
    hide Late, Leads, NeverAfter, Realizes, WellFormed, Compact;
    var g := CompiledGraph(p);
    CompiledRealizes(p);
    PlanCompact(g, p);
    var rank := seq(Size(g), i requires 0 <= i < Size(g) => (if Late(g, p, i) then Size(g) else 0) + i);
    forall a, b | 0 <= a < Size(g) && 0 <= b < Size(g) && !g.nodes[a].isGroup && !g.nodes[b].isGroup && Before(g, b, a)
      ensures rank[b] < rank[a]
    {
      if b in g.nodes[a].computed {
        ComputedIs(p, a, b);
        SoughtIsNotLate(g, p, b);
        SeekerIsLate(g, p, a);
      } else {
        LeadsUpwards(g, b, a);
        if Late(g, p, b) {
          LateStays(g, p, b, a);
        }
      }
    }
    assert Ordered(g, rank);
  }

  lemma {:induction false} SeekerIsLate(g: Graph, p: Plan<Op>, a: Id)
    requires WellFormed(g) && a < Size(g) && InSet(OpAt(p, 0, a), Seeks)
    ensures Late(g, p, a)
  {
  }

  // ------------------------------------------------------------------------
  // Which plans look only for what comes before
  // ------------------------------------------------------------------------

  lemma {:induction false} MachineNever(s: Settings, d: Deployment, path: Path)
    requires d.Vm?
    ensures ActNever(CreateMachine(s, d, path), Seeks, IsSought, AnyStep)
  {
    var acts := [Act(CreateVm(path, d.params)),
                 ActIf(s.configureOnCreate, ConfigureVm(path, d.params, s.fixed)),
                 ActIf(s.firewalled, CreateFirewallRules(path, d.rules, d.node, d.supplies))];
    var items := NonNull(acts);
    forall m, n | 0 <= m < n < |items| ensures Unmixed(AnyStep, items[m], items[n], Seeks, IsSought) {
      var i, j := NonNullPair(acts, m, n);
    }
    forall m | 0 <= m < |items| ensures NeverAfter(items[m], Seeks, IsSought, AnyStep) {
      var i := NonNullFrom(acts, m);
    }
  }

  lemma {:induction false} CreateNever(s: Settings, d: Deployment, path: Path)
    ensures ActNever(CreatePlan(s, d, path), Seeks, IsSought, AnyStep)
    decreases d, 0, 0
  {
    hide NeverAfter, GenerateComposite, AfterCreated, CreateMachine;
    match d {
      case Vm(_, _, _, _, _, _, _) =>
        MachineNever(s, d, path);
        QuietActNever(Act(ProvisionVm(path, d.runlist)), Seeks, IsSought, AnyStep);
        PairNever(CreateMachine(s, d, path), Act(ProvisionVm(path, d.runlist)), Seeks, IsSought, AnyStep);
      case Environment(_, attributes) =>
        QuietActNever(Act(CreateEnvironment(path, attributes)), Seeks, IsSought, AnyStep);
      case External(_) =>
      case Composite(_, service, children) =>
        CreateAllNever(s, children, path);
        HooksQuiet(s, service, path);
        QuietActNever(AfterCreated(s, service, path), Seeks, IsSought, AnyStep);
        CompositeNever(CreateAll(s, children, path), AfterCreated(s, service, path), Seeks, IsSought, AnyStep);
    }
  }

  lemma {:induction false} CreateAllNever(s: Settings, ds: seq<Deployment>, path: Path)
    ensures forall n :: 0 <= n < |ds| ==> ActNever(CreateAll(s, ds, path)[n], Seeks, IsSought, AnyStep)
    decreases ds, 1, |ds|
  {
    if ds != [] {
      CreateNever(s, ds[0], path + [ds[0].name]);
      CreateAllNever(s, ds[1..], path);
    }
  }

  lemma {:induction false} HooksQuiet(s: Settings, service: Option<Service>, path: Path)
    ensures NoneOf(OpsOf(AfterCreated(s, service, path)), IsSought) && NoneOf(OpsOf(AfterDeleted(s, service, path)), IsSought)
  {
    hide AfterCreated, AfterDeleted;
    HookOps(s, service, path);
  }

  lemma {:induction false} UpdateHookQuiet(s: Settings, before: Option<Service>, after: Option<Service>, path: Path)
    ensures NoneOf(OpsOf(AfterUpdated(s, before, after, path)), IsSought)
  {
    hide AfterUpdated, ServiceActions, AfterDeleted;
    UpdateHookOps(s, before, after, path);
    HooksQuiet(s, before, path);
    if after.Some? {
      ServiceOps(s, after.value, ProxyOf(before, after.value), path);
    }
  }

  /** Deletions only remove. */
  lemma {:induction false} DeletionsRemove(s: Settings, d: Deployment, path: Path)
    ensures forall n :: 0 <= n < |OpsOf(DeletePlan(s, d, path))| ==> Removes(OpsOf(DeletePlan(s, d, path))[n])
  {
    var ops := OpsOf(DeletePlan(s, d, path));
    forall n | 0 <= n < |ops| ensures Removes(ops[n]) {
      DeleteMakesNothing(s, d, path, ops[n].path);
    }
  }

  lemma {:induction false} DeletionsSeekNothing(s: Settings, d: Deployment, path: Path)
    ensures NoneOf(OpsOf(DeletePlan(s, d, path)), Seeks) && NoneOf(OpsOf(DeletePlan(s, d, path)), IsSought)
  {
    DeletionsRemove(s, d, path);
  }

  lemma {:induction false} DeleteOldSeekNothing(s: Settings, olds: seq<Deployment>, news: seq<Deployment>, path: Path)
    ensures forall n :: 0 <= n < |NonNull(DeleteOld(s, olds, news, path))| ==>
      NoneOf(Ops(NonNull(DeleteOld(s, olds, news, path))[n]), Seeks)
    decreases |olds|
  {
    hide NoneOf;
    if olds != [] {
      DeleteOldSeekNothing(s, olds[1..], news, path);
      DeletionsSeekNothing(s, olds[0], path + [olds[0].name]);
    }
  }

  lemma {:induction false} CreateNewNever(s: Settings, olds: seq<Deployment>, news: seq<Deployment>, path: Path)
    ensures forall n :: 0 <= n < |NonNull(CreateNew(s, olds, news, path))| ==>
      NeverAfter(NonNull(CreateNew(s, olds, news, path))[n], Seeks, IsSought, AnyStep)
    decreases |news|
  {
    hide NeverAfter;
    if news != [] {
      CreateNewNever(s, olds, news[1..], path);
      CreateNever(s, news[0], path + [news[0].name]);
    }
  }

  lemma {:induction false} UpdateMachineNever(s: Settings, b: Deployment, a: Deployment, path: Path)
    requires b.Vm? && a.Vm?
    ensures ActNever(UpdateMachine(s, b, a, path), Seeks, IsSought, AnyStep)
  {
    hide NeverAfter, CreatePlan, DeletePlan;
    if Recreated(s, b, a, path) {
      DeletionsSeekNothing(s, b, path);
      QuietActNever(DeletePlan(s, b, path), Seeks, IsSought, AnyStep);
      CreateNever(s, a, path);
      PairNever(DeletePlan(s, b, path), CreatePlan(s, a, path), Seeks, IsSought, AnyStep);
    } else {
      UpdateVmOps(s, b, a, path);
      QuietActNever(UpdateMachine(s, b, a, path), Seeks, IsSought, AnyStep);
    }
  }

  lemma {:induction false} UpdateNever(s: Settings, b: Deployment, a: Deployment, path: Path)
    ensures ActNever(UpdatePlan(s, b, a, path), Seeks, IsSought, AnyStep)
    decreases a, 0, 0
  {
    hide NeverAfter, GenerateComposite, LevelActions, AfterUpdated, UpdateMachine;
    match (b, a) {
      case (Vm(_, _, _, _, _, _, _), Vm(_, _, _, _, _, _, _)) =>
        UpdateMachineNever(s, b, a, path);
      case (Environment(_, _), Environment(_, attributes)) =>
        EnvironmentNever(path, attributes);
      case (Composite(_, bService, olds), Composite(_, aService, news)) =>
        UpdateAllNever(s, olds, news, path);
        CreateNewNever(s, olds, news, path);
        DeleteOldSeekNothing(s, olds, news, path);
        var updates := UpdateAll(s, olds, news, path);
        var creates := NonNull(CreateNew(s, olds, news, path));
        var deletes := NonNull(DeleteOld(s, olds, news, path));
        LevelNever(updates, creates, deletes, Seeks, IsSought, AnyStep);
        UpdateHookQuiet(s, bService, aService, path);
        QuietActNever(AfterUpdated(s, bService, aService, path), Seeks, IsSought, AnyStep);
        CompositeNever(LevelActions(updates, creates, deletes), AfterUpdated(s, bService, aService, path), Seeks, IsSought, AnyStep);
      case _ =>
    }
  }

  lemma {:induction false} EnvironmentNever(path: Path, attributes: string)
    ensures NeverAfter(ActionSequence([Act(DeleteEnvironment(path)), Act(CreateEnvironment(path, attributes))]), Seeks, IsSought, AnyStep)
  {
    hide NeverAfter;
    var x, y := Act(DeleteEnvironment(path)), Act(CreateEnvironment(path, attributes));
    QuietActNever(x, Seeks, IsSought, AnyStep);
    QuietActNever(y, Seeks, IsSought, AnyStep);
    PairNever(x, y, Seeks, IsSought, AnyStep);
  }

  lemma {:induction false} UpdateAllNever(s: Settings, olds: seq<Deployment>, news: seq<Deployment>, path: Path)
    ensures forall n :: 0 <= n < |UpdateAll(s, olds, news, path)| ==>
      NeverAfter(UpdateAll(s, olds, news, path)[n], Seeks, IsSought, AnyStep)
    decreases news, 1, |news|
  {
    hide NeverAfter;
    if news != [] {
      UpdateAllNever(s, olds, news[1..], path);
      var b := ChildByName(olds, news[0].name);
      if b.Some? {
        UpdateNever(s, b.value, news[0], path + [news[0].name]);
      }
    }
  }

  /** The plans that the deployers compile have orders without cycles. */
  lemma {:induction false} CompiledPlansAcyclic(s: Settings, b: Deployment, a: Deployment, path: Path)
    ensures CreatePlan(s, a, path).Some? ==>
      WellFormed(CompiledGraph(CreatePlan(s, a, path).value)) && Acyclic(CompiledGraph(CreatePlan(s, a, path).value))
    ensures DeletePlan(s, b, path).Some? ==>
      WellFormed(CompiledGraph(DeletePlan(s, b, path).value)) && Acyclic(CompiledGraph(DeletePlan(s, b, path).value))
    ensures UpdatePlan(s, b, a, path).Some? ==>
      WellFormed(CompiledGraph(UpdatePlan(s, b, a, path).value)) && Acyclic(CompiledGraph(UpdatePlan(s, b, a, path).value))
  {
    hide *;
    CreateNever(s, a, path);
    DeletionsSeekNothing(s, b, path);
    QuietActNever(DeletePlan(s, b, path), Seeks, IsSought, AnyStep);
    UpdateNever(s, b, a, path);
    AcyclicAct(CreatePlan(s, a, path));
    AcyclicAct(DeletePlan(s, b, path));
    AcyclicAct(UpdatePlan(s, b, a, path));
  }

  lemma {:induction false} AcyclicAct(a: Action)
    requires ActNever(a, Seeks, IsSought, AnyStep)
    ensures a.Some? ==> WellFormed(CompiledGraph(a.value)) && Acyclic(CompiledGraph(a.value))
  {
    if a.Some? {
      CompiledAcyclic(a.value);
    }
  }

  // ------------------------------------------------------------------------
  // What is not ordered
  // ------------------------------------------------------------------------

  predicate OfProxy(op: Op) {
    op.ConfigureProxy? || op.DeleteProxy?
  }

  predicate OfPorts(op: Op) {
    op.OpenPorts? || op.ClosePorts?
  }

  /** The proxy of a service and its public ports are made, and removed, side by side: neither waits for the other. */
  lemma {:induction false} SideBySide(s: Settings, service: Service, proxy: string, path: Path)
    ensures ActNever(ServiceActions(s, service, proxy, path), OfProxy, OfPorts, AnyStep)
    ensures ActNever(ServiceActions(s, service, proxy, path), OfPorts, OfProxy, AnyStep)
    ensures ActNever(AfterDeleted(s, Some(service), path), OfProxy, OfPorts, AnyStep)
    ensures ActNever(AfterDeleted(s, Some(service), path), OfPorts, OfProxy, AnyStep)
  {
    hide NeverAfter;
    var configure, open := Act(ConfigureProxy(path, proxy, service.config)),
                           ActIf(service.gateway in s.firewalledGateways, OpenPorts(path, service.gateway, service.ports));
    var delete, close := Act(DeleteProxy(path, service.gateway)),
                         ActIf(service.gateway in s.firewalledGateways, ClosePorts(path, service.gateway));
    SinglesNever(configure, open, OfProxy, OfPorts);
    SinglesNever(configure, open, OfPorts, OfProxy);
    SinglesNever(delete, close, OfProxy, OfPorts);
    SinglesNever(delete, close, OfPorts, OfProxy);
  }

  lemma {:induction false} SinglesNever(a: Action, b: Action, x: OpSet, y: OpSet)
    requires (a.Some? ==> a.value.Single?) && (b.Some? ==> b.value.Single?)
    ensures NeverAfter(ActionGroup([a, b]), x, y, AnyStep)
  {
    GroupNever([a, b], x, y, AnyStep);
  }
}
