/**
  From plan to outcome: the objects of a plan are assembled, what its actions compute is looked up, the executor
  runs them, and what that leaves is known.
*/
module PlanExecution {
  import opened ActionGraph
  import opened ActionInvariant
  import opened ActionRuns
  import opened ActionProgress
  import opened ActionStuck
  import opened ActionTree
  import opened PlanOrder
  import opened PlanSchedule
  import opened Resources
  import opened Deployers
  import opened Convergence
  import opened UpdatePlans
  import opened CompiledPlans
  import opened Machines
  import opened Hostages
  import opened HostageRuns
  import opened UpdateResults
  import ActionHeap
  import ActionExecutor
  import ActionObjects

  type Object = ActionHeap.Action

  // ------------------------------------------------------------------------
  // The single actions, from left to right
  // ------------------------------------------------------------------------

  /** What `stream` lists are the single actions of the plan. */
  lemma {:induction false} SinglesAreLeaves(g: Graph, p: Plan<Op>, base: nat, up: Id, depends: seq<Id>, requiredBy: seq<Id>)
    requires WellFormed(g) && Placed(g, p, base, up, depends, requiredBy)
    ensures base + Count(p) - 1 < Size(g) && SinglesOf(g, base + Count(p) - 1) == Leaves(p, base)
    decreases p, 2
  {
    hide WellFormed, PlacedAll;
    if p.Group? {
      assert p.items[0..] == p.items;
      if p.items != [] {
        assert ItemBase(p.items, base, 0) == base;
      }
      ItemsAreLeaves(g, p, base, up, depends, requiredBy, p.items, 0, base);
    }
  }

  lemma {:induction false} ItemLeaves(g: Graph, p: Plan<Op>, base: nat, up: Id, depends: seq<Id>, requiredBy: seq<Id>, n: nat)
    requires WellFormed(g) && Placed(g, p, base, up, depends, requiredBy) && p.Group? && n < |p.items|
    ensures base + Count(p) - 1 < Size(g) && |g.nodes[base + Count(p) - 1].kids| == |p.items|
    ensures SinglesOf(g, Kid(g, base + Count(p) - 1, n)) == Leaves(p.items[n], ItemBase(p.items, base, n))
    decreases p, 0
  {
    hide WellFormed, PlacedAll, Leaves, SinglesOf;
    var b, dep, req := ItemPlaced(g, p.inSequence, p.items, base, base + Count(p) - 1, [], n);
    SinglesAreLeaves(g, p.items[n], b, base + Count(p) - 1, dep, req);
  }

  lemma {:induction false} RootKids(g: Graph, p: Plan<Op>, base: nat, up: Id, depends: seq<Id>, requiredBy: seq<Id>)
    requires Placed(g, p, base, up, depends, requiredBy) && p.Group?
    ensures base + Count(p) - 1 < Size(g) && g.nodes[base + Count(p) - 1].isGroup && |g.nodes[base + Count(p) - 1].kids| == |p.items|
  {
  }

  /** The items from number `n` on. */
  lemma {:induction false} ItemsAreLeaves(g: Graph, p: Plan<Op>, base: nat, up: Id, depends: seq<Id>, requiredBy: seq<Id>,
                                          rest: seq<Plan<Op>>, n: nat, here: nat)
    requires WellFormed(g) && Placed(g, p, base, up, depends, requiredBy) && p.Group? && n <= |p.items| && rest == p.items[n..]
    requires n < |p.items| ==> here == ItemBase(p.items, base, n)
    ensures base + Count(p) - 1 < Size(g) && n <= |g.nodes[base + Count(p) - 1].kids|
    ensures SinglesFrom(g, base + Count(p) - 1, n) == LeavesAll(rest, here)
    decreases p, 1, |p.items| - n
  {
    hide WellFormed, Placed, Leaves, SinglesOf;
    RootKids(g, p, base, up, depends, requiredBy);
    if n < |p.items| {
      ItemLeaves(g, p, base, up, depends, requiredBy, n);
      if n + 1 < |p.items| {
        NextItemBase(p.items, base, n);
      }
      assert rest[1..] == p.items[n + 1..];
      ItemsAreLeaves(g, p, base, up, depends, requiredBy, rest[1..], n + 1, here + Count(p.items[n]));
    }
  }

  lemma {:induction false} NextItemBase(items: seq<Plan<Op>>, base: nat, n: nat)
    requires n + 1 < |items|
    ensures ItemBase(items, base, n + 1) == ItemBase(items, base, n) + Count(items[n])
    decreases n
  {
    if n > 0 {
      NextItemBase(items[1..], base + Count(items[0]), n - 1);
    }
  }

  // ------------------------------------------------------------------------
  // Computed dependencies
  // ------------------------------------------------------------------------

  /** What the action with number `i` has been found to compute, when the first `k` single actions have been asked. */
  ghost function ComputedSoFar(p: Plan<Op>, k: nat, i: Id): seq<Id> {
    if exists n :: 0 <= n < k && n < |Leaves(p, 0)| && Leaves(p, 0)[n] == i then ComputedBy(p, i) else []
  }

  /** The objects are those of the plan, whatever they compute. */
  ghost predicate Formed(p: Plan<Op>, nodes: seq<Object>)
    reads nodes`place, nodes`actions, nodes`depends, nodes`requiredBy
  {
    var g := ToGraph(p);
    && WellFormed(g) && |nodes| == Size(g)
    && (forall i :: 0 <= i < |nodes| ==> nodes[i].place == i)
    && forall i :: 0 <= i < |nodes| ==>
         && nodes[i].isGroup == g.nodes[i].isGroup
         && ActionHeap.Refs(nodes, nodes[i].actions, g.nodes[i].kids)
         && ActionHeap.Refs(nodes, nodes[i].depends, g.nodes[i].depends)
         && ActionHeap.Refs(nodes, nodes[i].requiredBy, g.nodes[i].requiredBy)
  }

  /** The first `k` single actions have what they compute. */
  ghost predicate Computing(p: Plan<Op>, nodes: seq<Object>, k: nat)
    reads nodes`computed
  {
    forall i :: 0 <= i < |nodes| ==> ActionHeap.Refs(nodes, nodes[i].computed, ComputedSoFar(p, k, i))
  }

  lemma {:induction false} ComputingStarts(p: Plan<Op>, nodes: seq<Object>)
    requires ActionHeap.Represents(ToGraph(p), nodes)
    ensures Formed(p, nodes) && Computing(p, nodes, 0)
  {
    hide ToGraph;
    BuildComputesNothing(p, 0, Count(p), [], []);
    var g := ToGraph(p);
    forall i | 0 <= i < |nodes| ensures ActionHeap.Shape(g, nodes, i) && g.nodes[i].computed == [] && ComputedSoFar(p, 0, i) == [] {
      NothingComputed(p, i);
    }
  }

  lemma {:induction false} NothingComputed(p: Plan<Op>, i: Id)
    requires i < Size(ToGraph(p))
    ensures ToGraph(p).nodes[i].computed == []
  {
    BuildComputesNothing(p, 0, Count(p), [], []);
    assert ToGraph(p).nodes[i] in ToGraph(p).nodes;
  }

  lemma {:induction false} ComputingEnds(p: Plan<Op>, nodes: seq<Object>)
    requires Formed(p, nodes) && Computing(p, nodes, |Ops(p)|)
    ensures ActionHeap.Represents(CompiledGraph(p), nodes)
  {
    hide ToGraph, ComputedBy, Leaves, Ops, ActionHeap.Refs;
    var g := CompiledGraph(p);
    CompiledRealizes(p);
    forall i | 0 <= i < |nodes| ensures ActionHeap.Shape(g, nodes, i) {
      AllComputed(p, i);
    }
  }

  lemma {:induction false} AllComputed(p: Plan<Op>, i: Id)
    ensures ComputedSoFar(p, |Ops(p)|, i) == ComputedBy(p, i)
  {
    LeavesCount(p, 0);
    if OpAt(p, 0, i).Some? {
      var k := OpAtPlace(p, 0, i);
    }
  }

  /** Asking the single action at place `k`. */
  lemma {:induction false} ComputedNext(p: Plan<Op>, k: nat, i: Id)
    requires k < |Ops(p)| == |Leaves(p, 0)|
    ensures ComputedSoFar(p, k + 1, i) == if Leaves(p, 0)[k] == i then ComputedBy(p, i) else ComputedSoFar(p, k, i)
  {
    hide Leaves, Ops, ComputedBy;
    if Leaves(p, 0)[k] == i {
      assert k < k + 1;
    }
  }

  lemma {:induction false} ComputedAtPlace(p: Plan<Op>, nodes: seq<Object>, singles: seq<Object>, k: nat, found: seq<Object>)
    requires k < |Ops(p)| && ActionHeap.Refs(nodes, singles, Leaves(p, 0))
    requires var places := Found(Ops(p), SoughtBy(Ops(p)[k]));
             |found| == |places| && forall n :: 0 <= n < |places| ==> places[n] < |singles| && found[n] == singles[places[n]]
    ensures |Leaves(p, 0)| == |Ops(p)| && ActionHeap.Refs(nodes, found, ComputedBy(p, Leaves(p, 0)[k]))
  {
    LeafOp(p, 0, k);
  }

  lemma {:induction false} ComputingStep(p: Plan<Op>, nodes: seq<Object>, singles: seq<Object>, k: nat, found: seq<Object>, computed: seq<seq<Object>>)
    requires Formed(p, nodes) && |nodes| == |computed| && k < |Ops(p)| && ActionHeap.Refs(nodes, singles, Leaves(p, 0))
    requires forall i :: 0 <= i < |nodes| ==> ActionHeap.Refs(nodes, computed[i], ComputedSoFar(p, k, i))
    requires |Leaves(p, 0)| == |Ops(p)| && ActionHeap.Refs(nodes, found, ComputedBy(p, Leaves(p, 0)[k]))
    requires forall i :: 0 <= i < |nodes| ==> nodes[i].computed == if nodes[i] == singles[k] then found else computed[i]
    ensures Computing(p, nodes, k + 1)
  {
    hide ToGraph, ComputedBy, ComputedSoFar, Ops, Leaves;
    var id := Leaves(p, 0)[k];
    assert id < |nodes| && singles[k] == nodes[id];
    forall i | 0 <= i < |nodes| ensures ActionHeap.Refs(nodes, nodes[i].computed, ComputedSoFar(p, k + 1, i)) {
      ComputedNext(p, k, i);
      assert nodes[i].place == i && nodes[id].place == id;
    }
  }

  /** The single action at place `k` looks among those of the whole plan for what it depends on. */
  method ComputeOne(p: Plan<Op>, singles: seq<Object>, ops: seq<Op>, k: nat, ghost nodes: seq<Object>)
    requires Formed(p, nodes) && Computing(p, nodes, k) && ops == Ops(p) && k < |ops| == |singles|
    requires ActionHeap.Refs(nodes, singles, Leaves(p, 0)) && singles[k] in nodes
    modifies nodes`computed
    ensures Computing(p, nodes, k + 1)
  {
    hide ToGraph, Formed, ComputedBy, ComputedSoFar, Ops, Leaves, ActionHeap.Refs, Found, SoughtBy;
    ghost var before := ComputedOf(nodes);
    ComputedAre(p, nodes, k);
    var places := Found(ops, SoughtBy(ops[k]));
    var found := PlacesIn(singles, places);
    ComputedAtPlace(p, nodes, singles, k, found);
    singles[k].computed := found;
    ComputingStep(p, nodes, singles, k, found, before);
  }

  ghost function ComputedOf(nodes: seq<Object>): (r: seq<seq<Object>>)
    reads nodes
    ensures |r| == |nodes| && forall i :: 0 <= i < |nodes| ==> r[i] == nodes[i].computed
  {
    seq(|nodes|, i requires 0 <= i < |nodes| reads nodes => nodes[i].computed)
  }

  lemma {:induction false} ComputedAre(p: Plan<Op>, nodes: seq<Object>, k: nat)
    requires Computing(p, nodes, k)
    ensures forall i :: 0 <= i < |nodes| ==> ActionHeap.Refs(nodes, ComputedOf(nodes)[i], ComputedSoFar(p, k, i))
  {
  }

  /** All single actions look for what they depend on. */
  method ComputeDependencies(p: Plan<Op>, root: Object, ghost nodes: seq<Object>)
    requires ActionHeap.Represents(ToGraph(p), nodes) && root == nodes[Root(ToGraph(p))]
    modifies nodes`computed
    ensures ActionHeap.Represents(CompiledGraph(p), nodes)
  {
    hide ToGraph, CompiledGraph, NodeOk, ActionHeap.Shape, SinglesOf, Leaves, Ops, Formed, Computing, Placed, ActionHeap.Refs;
    ghost var g := ToGraph(p);
    var singles := root.Singles(g, nodes, Root(g));
    PlanHasGraph(p);
    RootSingles(p);
    RefsAre(nodes, singles, Leaves(p, 0));
    LeavesCount(p, 0);
    ComputingStarts(p, nodes);
    var ops := Ops(p);
    var k := 0;
    while k < |ops|
      invariant 0 <= k <= |ops| == |singles|
      invariant Formed(p, nodes) && Computing(p, nodes, k)
    {
      ComputeOne(p, singles, ops, k, nodes);
      k := k + 1;
    }
    ComputingEnds(p, nodes);
  }

  function PlacesIn(singles: seq<Object>, places: seq<nat>): (r: seq<Object>)
    requires forall k :: k in places ==> k < |singles|
    ensures |r| == |places| && forall n :: 0 <= n < |places| ==> places[n] < |singles| && r[n] == singles[places[n]]
  {
    if places == [] then []
    else
      assert places[0] in places && forall k :: k in places[1..] ==> k in places;
      [singles[places[0]]] + PlacesIn(singles, places[1..])
  }

  lemma {:induction false} RefsAre(nodes: seq<Object>, objects: seq<Object>, ids: seq<Id>)
    requires ActionHeap.Refs(nodes, objects, ids)
    ensures |objects| == |ids| && forall n :: 0 <= n < |ids| ==> ids[n] < |nodes| && objects[n] == nodes[ids[n]] && objects[n] in nodes
  {
  }

  lemma {:induction false} RootSingles(p: Plan<Op>)
    requires WellFormed(ToGraph(p)) && Realizes(ToGraph(p), p)
    ensures SinglesOf(ToGraph(p), Root(ToGraph(p))) == Leaves(p, 0)
  {
    hide Placed, ToGraph, Leaves;
    SinglesAreLeaves(ToGraph(p), p, 0, Count(p), [], []);
  }

  // ------------------------------------------------------------------------
  // Execution
  // ------------------------------------------------------------------------

  /** What the objects show at the end, said of the run. */
  lemma {:induction false} Outcome(p: Plan<Op>, root: Object, nodes: seq<Object>, run: seq<System>)
    requires WellFormed(CompiledGraph(p)) && ActionHeap.Represents(CompiledGraph(p), nodes) && root == nodes[Root(CompiledGraph(p))]
    requires IsRun(CompiledGraph(p), run) && Last(run).st == ActionHeap.Stored(nodes)
    ensures run != [] && root.status == run[|run| - 1].st[Root(CompiledGraph(p))]
    ensures root.status == Successful ==> Succeeds(p, run)
    ensures (exists i :: 0 <= i < |nodes| && !nodes[i].isGroup && nodes[i].status == Failed) ==> SomeFailed(CompiledGraph(p), run)
  {
    hide CompiledGraph, WellFormed;
    var g := CompiledGraph(p);
    var st := Last(run).st;
    assert forall i :: 0 <= i < |nodes| ==> st[i] == nodes[i].status && ActionHeap.Shape(g, nodes, i);
  }

  ghost predicate SomeFailed(g: Graph, run: seq<System>)
    requires run != []
  {
    Fits(g, Last(run).st) && exists i :: 0 <= i < Size(g) && !g.nodes[i].isGroup && Last(run).st[i] == Failed
  }

  /** After that many turns of the loop every action has been picked, started and ended, if it ever will be. */
  function Enough(p: Plan<Op>): nat {
    3 * Size(CompiledGraph(p)) + 1
  }

  /** The run rests for ever without being done: some action waits in vain. */
  ghost predicate Hangs(g: Graph, run: seq<System>) {
    && WellFormed(g) && IsRun(g, run) && Fits(g, Last(run).st) && AtRest(g, Last(run).st)
    && Last(run).st[Root(g)] !in {Successful, Failed} && exists a :: WaitsInVain(g, Last(run).st, a)
  }

  /**
    A plan is assembled, its dependencies are looked up, and it is executed for some turns of the loop. With SUCCESSFUL
    every action has ended well. After enough turns it is done, or some action waits in vain; and it is done
    if the plan has no cycles and no hostages.
  */
  method ExecutePlan(p: Plan<Op>, turns: nat) returns (status: Status, ghost run: seq<System>)
    requires TamePlan(p)
    ensures WellFormed(CompiledGraph(p)) && IsRun(CompiledGraph(p), run) && run != []
    ensures status == run[|run| - 1].st[Root(CompiledGraph(p))]
    ensures status == Successful ==> Succeeds(p, run)
    ensures status == Failed ==> SomeFailed(CompiledGraph(p), run)
    ensures turns >= Enough(p) ==> status in {Successful, Failed} || Hangs(CompiledGraph(p), run)
    ensures turns >= Enough(p) && Acyclic(CompiledGraph(p)) && NoHostage(CompiledGraph(p)) ==> status in {Successful, Failed}
  {
    hide *;
    ghost var g := CompiledGraph(p);
    CompiledRealizes(p);
    var root;
    ghost var nodes;
    root, nodes := ActionObjects.Assemble(p);
    SameRoot(p);
    ComputeDependencies(p, root, nodes);
    PlanWellFormed(g, p);
    TamePlanTameGraph(g, p);
    var done;
    done, run := ActionExecutor.ExecuteTurns(root, turns, g, nodes);
    status := root.status;
    Outcome(p, root, nodes, run);
    NodesCount(g, nodes);
    EnoughIs(p);
    if turns >= Enough(p) && !done {
      IdleHangs(g, run);
    }
  }

  lemma {:induction false} NodesCount(g: Graph, nodes: seq<Object>)
    requires WellFormed(g) && ActionHeap.Represents(g, nodes)
    ensures |nodes| == Size(g)
  {
  }

  lemma {:induction false} EnoughIs(p: Plan<Op>)
    ensures Enough(p) == 3 * Size(CompiledGraph(p)) + 1
  {
  }

  lemma {:induction false} IdleHangs(g: Graph, run: seq<System>)
    requires WellFormed(g) && IsRun(g, run) && ActionExecutor.Idle(g, Last(run).st) && exists a :: WaitsInVain(g, Last(run).st, a)
    ensures Hangs(g, run) && !(Acyclic(g) && NoHostage(g))
  {
    hide WaitsInVain, Acyclic, NoHostage;
    if Acyclic(g) && NoHostage(g) {
      RestIsDone(g, Last(run).st);
    }
  }

  lemma {:induction false} SameRoot(p: Plan<Op>)
    ensures Root(ToGraph(p)) == Root(CompiledGraph(p)) && Size(ToGraph(p)) == Size(CompiledGraph(p)) > 0
  {
  }

  /**
    An update from start to end: the plan is compiled, assembled and executed, with workers that end in any order.
    After enough turns it is done or hangs, and it hangs only if some machine made anew asks a recreated one to let
    it in. If it succeeded, or there was nothing to do, the world is the one that the new application describes
    exactly when `Reachable` holds, unless rules can get lost.
  */
  method UpdateDeployment(s: Settings, b: Deployment, a: Deployment, turns: nat, ghost w: World)
    returns (status: Status, ghost run: seq<System>, ghost w': World)
    requires b.Composite? && WellNamed(b) && Application(a) && SameKind(b, a) && Shows(s, w, b)
    ensures UpdatePlan(s, b, a, []).None? ==> status == Successful && w' == w
    ensures UpdatePlan(s, b, a, []).Some? ==>
              var p := UpdatePlan(s, b, a, []).value;
              var g := CompiledGraph(p);
              && WellFormed(g) && IsRun(g, run) && run != [] && status == run[|run| - 1].st[Root(g)]
              && w' == WorldAfter(p, run, w)
              && (status == Successful ==> Succeeds(p, run)) && (status == Failed ==> SomeFailed(g, run))
              && (turns >= Enough(p) ==>
                    status in {Successful, Failed} || (Hangs(g, run) && s.configureOnCreate && HoldsHostages(s, b, a)))
    ensures status == Successful && !LosesRules(s, b, a) ==> (Shows(s, w', a) <==> Reachable(s, b, a))
  {
    hide *;
    var plan := UpdatePlan(s, b, a, []);
    ApplicationIs(a);
    if plan.None? {
      NothingToUpdate(s, b, a, w);
      return Successful, [], w;
    }
    var p := plan.value;
    IsUpdate(s, b, a, p);
    CompiledPlansAcyclic(s, b, a, []);
    UpdateIsTame(s, b, a);
    status, run := ExecutePlan(p, turns);
    w' := WorldAfter(p, run, w);
    if !(s.configureOnCreate && HoldsHostages(s, b, a)) {
      UpdateIsFree(s, b, a, p);
    }
    if status == Successful && !LosesRules(s, b, a) {
      UpdateConverges(s, b, a, p, run, w);
    }
  }

  lemma {:induction false} IsUpdate(s: Settings, b: Deployment, a: Deployment, p: Plan<Op>)
    requires b.Composite? && WellNamed(b) && Application(a) && SameKind(b, a) && UpdatePlan(s, b, a, []) == Some(p)
    ensures Updates(s, b, a, p)
  {
  }

  lemma {:induction false} UpdateIsTame(s: Settings, b: Deployment, a: Deployment)
    requires WellNamed(b) && WellNamed(a) && SameKind(b, a) && UpdatePlan(s, b, a, []).Some?
    ensures TamePlan(UpdatePlan(s, b, a, []).value)
  {
    UpdateSound(s, b, a, []);
  }
}
