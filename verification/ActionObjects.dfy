/** The objects of a plan: assembled by the combinators they form the plan's graph, and the executor runs them to an end. */
module ActionObjects {
  import opened ActionGraph
  import opened ActionInvariant
  import opened ActionRuns
  import opened ActionProgress
  import opened ActionTree
  import opened ActionHeap
  import opened ActionAssembly

  /** The roots of the items whose objects these are, one item after the other. */
  function RootsOf<Op>(items: seq<Plan<Op>>, nodes: seq<Action>): (r: seq<Action>)
    requires |nodes| == CountAll(items)
    ensures |r| == |items|
  {
    if items == [] then [] else [nodes[Count(items[0]) - 1]] + RootsOf(items[1..], nodes[Count(items[0])..])
  }

  function IfSo(c: bool, objects: seq<Action>): seq<Action> {
    if c then objects else []
  }

  /** What requires the first of the items. */
  function Next<Op>(inSequence: bool, items: seq<Plan<Op>>, nodes: seq<Action>): seq<Action>
    requires |nodes| == CountAll(items) && items != []
  {
    IfSo(inSequence && |items| > 1, Following(RootsOf(items, nodes), 0))
  }

  /** The objects form the plan, and its root has these links. */
  ghost predicate Forms<Op>(p: Plan<Op>, nodes: seq<Action>, depends: seq<Action>, requiredBy: seq<Action>)
    reads nodes`status, nodes`actions, nodes`depends, nodes`requiredBy, nodes`computed
    decreases p, 0, 0
  {
    && |nodes| == Count(p)
    && RootForms(p, nodes[|nodes| - 1], nodes[..|nodes| - 1], depends, requiredBy)
    && (p.Group? ==> FormsAll(p.inSequence, p.items, nodes[..|nodes| - 1], []))
  }

  ghost predicate RootForms<Op>(p: Plan<Op>, root: Action, below: seq<Action>, depends: seq<Action>, requiredBy: seq<Action>)
    requires |below| == Count(p) - 1
    reads root`status, root`actions, root`depends, root`requiredBy, root`computed
  {
    && root.isGroup == p.Group? && root.status == Pending && root.computed == []
    && root.depends == depends && root.requiredBy == requiredBy
    && root.actions == match p case Single(_) => [] case Group(_, items) => RootsOf(items, below)
  }

  ghost predicate FormsAll<Op>(inSequence: bool, items: seq<Plan<Op>>, nodes: seq<Action>, before: seq<Action>)
    reads nodes`status, nodes`actions, nodes`depends, nodes`requiredBy, nodes`computed
    decreases items, 1, |items|
  {
    && |nodes| == CountAll(items)
    && (items != [] ==>
          var n := Count(items[0]);
          && Forms(items[0], nodes[..n], before, Next(inSequence, items, nodes))
          && FormsAll(inSequence, items[1..], nodes[n..], IfSo(inSequence, [nodes[n - 1]])))
  }

  // ------------------------------------------------------------------------
  // The objects of a plan form its graph
  // ------------------------------------------------------------------------

  ghost predicate AllShaped(g: Graph, all: seq<Action>, base: nat, n: nat)
    requires base + n <= |all| == Size(g)
    reads all`actions, all`depends, all`requiredBy, all`computed
  {
    forall i :: base <= i < base + n ==> Shape(g, all, i)
  }

  /** Objects and numbers of the roots of items agree. */
  lemma {:induction false} RefsCons(all: seq<Action>, objects: seq<Action>, ids: seq<Id>, o: Action, i: Id)
    requires Refs(all, objects, ids) && i < |all| && o == all[i]
    ensures Refs(all, [o] + objects, [i] + ids)
  {
  }

  lemma {:induction false} FirstRoots<Op>(items: seq<Plan<Op>>, nodes: seq<Action>, base: nat)
    requires items != [] && |nodes| == CountAll(items)
    ensures var n := Count(items[0]);
            && 0 < n <= |nodes| && |nodes[n..]| == CountAll(items[1..])
            && RootsOf(items, nodes) == [nodes[n - 1]] + RootsOf(items[1..], nodes[n..])
            && Roots(items, base) == [base + n - 1] + Roots(items[1..], base + n)
  {
    CountFirst(items);
    hide Count, CountAll;
  }

  lemma {:induction false} CountFirst<Op>(items: seq<Plan<Op>>)
    requires items != []
    ensures CountAll(items) == Count(items[0]) + CountAll(items[1..]) && Count(items[0]) > 0
  {
  }

  /** The nodes stand in `all` from `base` on. */
  ghost predicate StandAt(nodes: seq<Action>, all: seq<Action>, base: nat) {
    base + |nodes| <= |all| && forall i :: 0 <= i < |nodes| ==> nodes[i] == all[base + i]
  }

  lemma {:induction false} SliceStands(nodes: seq<Action>, all: seq<Action>, base: nat)
    requires base + |nodes| <= |all| && nodes == all[base..base + |nodes|]
    ensures StandAt(nodes, all, base)
  {
  }

  lemma {:induction false} LaterStand(nodes: seq<Action>, all: seq<Action>, base: nat, n: nat)
    requires StandAt(nodes, all, base) && 0 < n <= |nodes|
    ensures StandAt(nodes[n..], all, base + n) && base + n - 1 < |all| && nodes[n - 1] == all[base + n - 1]
  {
  }

  lemma {:induction false} RootsAgree<Op>(items: seq<Plan<Op>>, nodes: seq<Action>, all: seq<Action>, base: nat)
    requires |nodes| == CountAll(items) && StandAt(nodes, all, base)
    ensures Refs(all, RootsOf(items, nodes), Roots(items, base))
    decreases |items|
  {
    if items == [] {
      NoRoots<Op>(all, base);
    } else {
      hide Refs, RootsOf, Roots, Count, CountAll, StandAt;
      FirstRoots(items, nodes, base);
      var n := Count(items[0]);
      LaterStand(nodes, all, base, n);
      RootsAgree(items[1..], nodes[n..], all, base + n);
      RefsCons(all, RootsOf(items[1..], nodes[n..]), Roots(items[1..], base + n), nodes[n - 1], base + n - 1);
    }
  }

  lemma {:induction false} NoRoots<Op>(all: seq<Action>, base: nat)
    ensures CountAll<Op>([]) == 0 && Refs(all, RootsOf<Op>([], []), Roots<Op>([], base))
  {
  }

  lemma {:induction false} ShapedJoin(g: Graph, all: seq<Action>, base: nat, m: nat, n: nat)
    requires base + m + n <= |all| == Size(g) && AllShaped(g, all, base, m) && AllShaped(g, all, base + m, n)
    ensures AllShaped(g, all, base, m + n)
  {
  }

  lemma {:induction false} RootNode<Op>(p: Plan<Op>, base: nat, up: Id, depends: seq<Id>, requiredBy: seq<Id>)
    ensures Build(p, base, up, depends, requiredBy).nodes[Count(p) - 1]
            == Node(p.Group?, match p case Single(_) => [] case Group(_, items) => Roots(items, base), depends, requiredBy, [])
  {
  }

  /** The root of a plan is shaped like its node. */
  lemma {:induction false} RootShape<Op>(g: Graph, all: seq<Action>, p: Plan<Op>, nodes: seq<Action>, base: nat, up: Id,
                                         depends: seq<Id>, requiredBy: seq<Id>, befores: seq<Action>, afters: seq<Action>)
    requires Holds(g, Build(p, base, up, depends, requiredBy), base) && |all| == Size(g)
    requires |nodes| == Count(p) && base + |nodes| <= |all| && nodes == all[base..base + |nodes|]
    requires Refs(all, befores, depends) && Refs(all, afters, requiredBy)
    requires RootForms(p, nodes[|nodes| - 1], nodes[..|nodes| - 1], befores, afters)
    ensures AllShaped(g, all, base + Count(p) - 1, 1)
  {
    hide *;
    var root := base + Count(p) - 1;
    var b := Build(p, base, up, depends, requiredBy);
    RootNode(p, base, up, depends, requiredBy);
    HeldAt(g, b, base, root);
    assert nodes[|nodes| - 1] == all[root];
    var below := nodes[..|nodes| - 1];
    RootFormsAre(p, all[root], below, befores, afters);
    NoRefs(all);
    if p.Group? {
      assert below == all[base..base + |below|];
      SliceStands(below, all, base);
      RootsAgree(p.items, below, all, base);
    }
    OneShaped(g, all, root);
  }

  lemma {:induction false} HeldAt(g: Graph, b: Graph, base: nat, i: Id)
    requires Holds(g, b, base) && base <= i < base + |b.nodes|
    ensures i < Size(g) == |g.nodes| && g.nodes[i] == b.nodes[i - base]
  {
    assert HoldsAt(g, b, base, i);
  }

  lemma {:induction false} RootFormsAre<Op>(p: Plan<Op>, root: Action, below: seq<Action>, befores: seq<Action>, afters: seq<Action>)
    requires |below| == Count(p) - 1 && RootForms(p, root, below, befores, afters)
    ensures root.isGroup == p.Group? && root.computed == [] && root.depends == befores && root.requiredBy == afters
    ensures p.Single? ==> root.actions == []
    ensures p.Group? ==> |below| == CountAll(p.items) && root.actions == RootsOf(p.items, below)
  {
  }

  lemma {:induction false} OneShaped(g: Graph, all: seq<Action>, i: Id)
    requires i < |all| == Size(g) == |g.nodes| && all[i].isGroup == g.nodes[i].isGroup
    requires Refs(all, all[i].actions, g.nodes[i].kids) && Refs(all, all[i].depends, g.nodes[i].depends)
    requires Refs(all, all[i].requiredBy, g.nodes[i].requiredBy) && Refs(all, all[i].computed, g.nodes[i].computed)
    ensures AllShaped(g, all, i, 1)
  {
    assert Shape(g, all, i);
  }

  lemma {:induction false} NoneShaped(g: Graph, all: seq<Action>, base: nat)
    requires base <= |all| == Size(g)
    ensures AllShaped(g, all, base, 0)
  {
  }

  lemma {:induction false} CountStep<Op>(items: seq<Plan<Op>>)
    ensures CountAll(items) == if items == [] then 0 else Count(items[0]) + CountAll(items[1..])
  {
  }

  lemma {:induction false} NoRefs(all: seq<Action>)
    ensures Refs(all, [], [])
  {
  }

  lemma {:induction false} FormsParts<Op>(p: Plan<Op>, nodes: seq<Action>, befores: seq<Action>, afters: seq<Action>)
    requires Forms(p, nodes, befores, afters)
    ensures |nodes| == Count(p) && RootForms(p, nodes[|nodes| - 1], nodes[..|nodes| - 1], befores, afters)
    ensures p.Group? ==> FormsAll(p.inSequence, p.items, nodes[..|nodes| - 1], [])
  {
  }

  lemma {:induction false} BelowHeld<Op>(g: Graph, inSequence: bool, items: seq<Plan<Op>>, base: nat, up: Id, depends: seq<Id>, requiredBy: seq<Id>)
    requires Holds(g, Build(Group(inSequence, items), base, up, depends, requiredBy), base)
    ensures Holds(g, BuildAll(inSequence, items, base, base + CountAll(items), []), base)
  {
    hide Holds;
    HoldsJoin(g, BuildAll(inSequence, items, base, base + CountAll(items), []),
              Graph([Node(true, Roots(items, base), depends, requiredBy, [])], [up]), base);
  }

  lemma {:induction false} ShapesOf<Op>(g: Graph, all: seq<Action>, p: Plan<Op>, nodes: seq<Action>, base: nat, up: Id,
                                        depends: seq<Id>, requiredBy: seq<Id>, befores: seq<Action>, afters: seq<Action>)
    requires Holds(g, Build(p, base, up, depends, requiredBy), base) && |all| == Size(g)
    requires |nodes| == Count(p) && base + |nodes| <= |all| && nodes == all[base..base + |nodes|]
    requires Refs(all, befores, depends) && Refs(all, afters, requiredBy)
    requires Forms(p, nodes, befores, afters)
    ensures AllShaped(g, all, base, Count(p))
    decreases p, 0, 0
  {
    hide Forms, FormsAll, RootForms, Holds, Build, BuildAll, Roots, RootsOf, AllShaped, Refs;
    FormsParts(p, nodes, befores, afters);
    RootShape(g, all, p, nodes, base, up, depends, requiredBy, befores, afters);
    if p.Group? {
      var below := nodes[..|nodes| - 1];
      assert below == all[base..base + |below|];
      BelowHeld(g, p.inSequence, p.items, base, up, depends, requiredBy);
      NoRefs(all);
      ShapesOfAll(g, all, p.inSequence, p.items, below, base, base + CountAll(p.items), [], []);
      ShapedJoin(g, all, base, |below|, 1);
    }
  }

  lemma {:induction false} FormsAllSplit<Op>(inSequence: bool, items: seq<Plan<Op>>, nodes: seq<Action>, befores: seq<Action>)
    requires FormsAll(inSequence, items, nodes, befores) && items != []
    ensures |nodes| == CountAll(items) && Forms(items[0], nodes[..Count(items[0])], befores, Next(inSequence, items, nodes))
    ensures FormsAll(inSequence, items[1..], nodes[Count(items[0])..], IfSo(inSequence, [nodes[Count(items[0]) - 1]]))
  {
  }

  lemma {:induction false} ShapesOfAll<Op>(g: Graph, all: seq<Action>, inSequence: bool, items: seq<Plan<Op>>, nodes: seq<Action>,
                                           base: nat, up: Id, depends: seq<Id>, befores: seq<Action>)
    requires Holds(g, BuildAll(inSequence, items, base, up, depends), base) && |all| == Size(g)
    requires |nodes| == CountAll(items) && base + |nodes| <= |all| && nodes == all[base..base + |nodes|]
    requires Refs(all, befores, depends) && FormsAll(inSequence, items, nodes, befores)
    ensures AllShaped(g, all, base, CountAll(items))
    decreases items, 1, |items|
  {
    hide *;
    CountStep(items);
    if items == [] {
      NoneShaped(g, all, base);
    } else {
      var n := Count(items[0]);
      var root := base + n - 1;
      FormsAllSplit(inSequence, items, nodes, befores);
      var first, rest := nodes[..n], nodes[n..];
      Slices(all, nodes, base, n);
      SplitItems(g, inSequence, items, base, up, depends);
      SliceStands(nodes, all, base);
      RootsAgree(items, nodes, all, base);
      NextIsAfter(inSequence, items, nodes, all, base);
      BeforeIsLink(inSequence, all, nodes[n - 1], root);
      ShapesOf(g, all, items[0], first, base, up, depends, After(inSequence, items, root), befores, Next(inSequence, items, nodes));
      ShapesOfAll(g, all, inSequence, items[1..], rest, root + 1, up, Link(inSequence, root), IfSo(inSequence, [nodes[n - 1]]));
      ShapedJoin(g, all, base, n, |rest|);
    }
  }

  lemma {:induction false} Slices(all: seq<Action>, nodes: seq<Action>, base: nat, n: nat)
    requires base + |nodes| <= |all| && nodes == all[base..base + |nodes|] && 0 < n <= |nodes|
    ensures nodes[..n] == all[base..base + n] && nodes[n..] == all[base + n..base + n + |nodes[n..]|] && nodes[n - 1] == all[base + n - 1]
  {
  }

  lemma {:induction false} BeforeIsLink(inSequence: bool, all: seq<Action>, a: Action, root: Id)
    requires root < |all| && a == all[root]
    ensures Refs(all, IfSo(inSequence, [a]), Link(inSequence, root))
  {
  }

  lemma {:induction false} NextIsAfter<Op>(inSequence: bool, items: seq<Plan<Op>>, nodes: seq<Action>, all: seq<Action>, base: nat)
    requires items != [] && |nodes| == CountAll(items) && base + |nodes| <= |all|
    requires Refs(all, RootsOf(items, nodes), Roots(items, base))
    ensures Refs(all, Next(inSequence, items, nodes), After(inSequence, items, base + Count(items[0]) - 1))
  {
    if inSequence && |items| > 1 {
      assert Roots(items, base)[1] == Roots(items[1..], base + Count(items[0]))[0];
    }
  }

  /** The objects assembled for a plan represent the plan's graph. */
  lemma {:induction false} FormsGraph<Op>(p: Plan<Op>, nodes: seq<Action>)
    requires Forms(p, nodes, [], [])
    requires forall i :: 0 <= i < |nodes| ==> nodes[i].place == i
    ensures Represents(ToGraph(p), nodes)
  {
    var g := ToGraph(p);
    PlanHasGraph(p);
    PlanWellFormed(g, p);
    forall i | 0 <= i < |g.nodes| ensures HoldsAt(g, g, 0, i) {
    }
    assert nodes == nodes[0..0 + |nodes|];
    ShapesOf(g, nodes, p, nodes, 0, Count(p), [], [], [], []);
  }

  /** Objects that form a plan are all pending. */
  lemma {:induction false} FormsPending<Op>(p: Plan<Op>, nodes: seq<Action>, befores: seq<Action>, afters: seq<Action>)
    requires Forms(p, nodes, befores, afters)
    ensures forall i :: 0 <= i < |nodes| ==> nodes[i].status == Pending
    decreases p, 0, 0
  {
    hide FormsAll, Forms;
    FormsParts(p, nodes, befores, afters);
    if p.Group? {
      var below := nodes[..|nodes| - 1];
      FormsAllPending(p.inSequence, p.items, below, []);
      assert forall i :: 0 <= i < |below| ==> nodes[i] == below[i];
    }
  }

  lemma {:induction false} FormsNothing<Op>(inSequence: bool, items: seq<Plan<Op>>, nodes: seq<Action>, befores: seq<Action>)
    requires FormsAll(inSequence, items, nodes, befores) && items == []
    ensures nodes == []
  {
  }

  lemma {:induction false} FormsAllPending<Op>(inSequence: bool, items: seq<Plan<Op>>, nodes: seq<Action>, befores: seq<Action>)
    requires FormsAll(inSequence, items, nodes, befores)
    ensures forall i :: 0 <= i < |nodes| ==> nodes[i].status == Pending
    decreases items, 1, |items|
  {
    hide Forms, FormsAll, Next;
    if items == [] {
      FormsNothing(inSequence, items, nodes, befores);
    } else {
      FormsAllSplit(inSequence, items, nodes, befores);
      var n := Count(items[0]);
      FormsPending(items[0], nodes[..n], befores, Next(inSequence, items, nodes));
      FormsAllPending(inSequence, items[1..], nodes[n..], IfSo(inSequence, [nodes[n - 1]]));
      assert forall i :: n <= i < |nodes| ==> nodes[i] == nodes[n..][i - n];
    }
  }

  // ------------------------------------------------------------------------
  // Assembling
  // ------------------------------------------------------------------------

  function Concat(parts: seq<seq<Action>>): seq<Action> {
    if parts == [] then [] else parts[0] + Concat(parts[1..])
  }

  /** One part for each item, formed on its own, with its root. */
  ghost predicate Parts<Op>(items: seq<Plan<Op>>, parts: seq<seq<Action>>, roots: seq<Action>) {
    && |items| == |parts| == |roots|
    && forall k :: 0 <= k < |items| ==> |parts[k]| == Count(items[k]) && roots[k] == parts[k][|parts[k]| - 1]
  }

  lemma {:induction false} PartsTail<Op>(items: seq<Plan<Op>>, parts: seq<seq<Action>>, roots: seq<Action>)
    requires Parts(items, parts, roots) && items != []
    ensures Parts(items[1..], parts[1..], roots[1..])
  {
  }

  lemma {:induction false} PartsJoin<Op>(items: seq<Plan<Op>>, parts: seq<seq<Action>>, roots: seq<Action>)
    requires Parts(items, parts, roots)
    ensures |Concat(parts)| == CountAll(items) && RootsOf(items, Concat(parts)) == roots
    decreases |items|
  {
    if items != [] {
      PartsTail(items, parts, roots);
      PartsJoin(items[1..], parts[1..], roots[1..]);
      assert Concat(parts)[Count(items[0])..] == Concat(parts[1..]);
      assert roots == [roots[0]] + roots[1..];
    }
  }

  lemma {:induction false} JoinForms<Op>(inSequence: bool, items: seq<Plan<Op>>, parts: seq<seq<Action>>, roots: seq<Action>, before: seq<Action>)
    requires Parts(items, parts, roots) && items != []
    requires Forms(items[0], parts[0], before, IfSo(inSequence, Following(roots, 0)))
    requires FormsAll(inSequence, items[1..], Concat(parts[1..]), IfSo(inSequence, [roots[0]]))
    ensures FormsAll(inSequence, items, Concat(parts), before)
  {
    hide Forms;
    PartsJoin(items, parts, roots);
    var nodes := Concat(parts);
    assert nodes[..Count(items[0])] == parts[0] && nodes[Count(items[0])..] == Concat(parts[1..]);
    assert Next(inSequence, items, nodes) == IfSo(inSequence, Following(roots, 0));
  }

  /** Parts that are linked as the items of a group are form all the items. */
  lemma {:induction false} Together<Op>(inSequence: bool, items: seq<Plan<Op>>, parts: seq<seq<Action>>, roots: seq<Action>, before: seq<Action>)
    requires Parts(items, parts, roots)
    requires forall k :: 0 <= k < |items| ==>
               Forms(items[k], parts[k], if k == 0 then before else IfSo(inSequence, Previous(roots, k)), IfSo(inSequence, Following(roots, k)))
    ensures FormsAll(inSequence, items, Concat(parts), before)
    decreases |items|
  {
    hide Forms;
    if items != [] {
      hide FormsAll;
      PartsTail(items, parts, roots);
      var first := IfSo(inSequence, [roots[0]]);
      forall k | 0 <= k < |items[1..]|
        ensures Forms(items[1..][k], parts[1..][k], if k == 0 then first else IfSo(inSequence, Previous(roots[1..], k)),
                      IfSo(inSequence, Following(roots[1..], k)))
      {
        assert Forms(items[k + 1], parts[k + 1], IfSo(inSequence, Previous(roots, k + 1)), IfSo(inSequence, Following(roots, k + 1)));
        assert k > 0 ==> Previous(roots, k + 1) == Previous(roots[1..], k);
        assert Following(roots, k + 1) == Following(roots[1..], k);
      }
      Together(inSequence, items[1..], parts[1..], roots[1..], first);
      assert Forms(items[0], parts[0], before, IfSo(inSequence, Following(roots, 0)));
      JoinForms(inSequence, items, parts, roots, before);
    }
  }

  /** All about a plan's objects but for the links of its root. */
  ghost predicate Stable<Op>(p: Plan<Op>, root: Action, below: seq<Action>)
    reads root`status, root`actions, root`computed
    reads below`status, below`actions, below`depends, below`requiredBy, below`computed
  {
    && |below| == Count(p) - 1
    && root.isGroup == p.Group? && root.status == Pending && root.computed == []
    && root.actions == (match p case Single(_) => [] case Group(_, items) => RootsOf(items, below))
    && (p.Group? ==> FormsAll(p.inSequence, p.items, below, []))
  }

  lemma {:induction false} StableForms<Op>(p: Plan<Op>, nodes: seq<Action>, befores: seq<Action>, afters: seq<Action>)
    requires |nodes| == Count(p)
    ensures var root := nodes[|nodes| - 1];
            Forms(p, nodes, befores, afters) <==>
            Stable(p, root, nodes[..|nodes| - 1]) && root.depends == befores && root.requiredBy == afters
  {
  }

  /** The objects below the roots. */
  ghost function BelowRoots(parts: seq<seq<Action>>): set<Action> {
    set k, j | 0 <= k < |parts| && 0 <= j < |parts[k]| - 1 :: parts[k][j]
  }

  /** The parts are stable; `below` holds the objects below their roots. */
  ghost predicate AllStable<Op>(items: seq<Plan<Op>>, parts: seq<seq<Action>>, roots: seq<Action>, below: set<Action>)
    requires Parts(items, parts, roots) && BelowRoots(parts) <= below
    reads roots`status, roots`actions, roots`computed
    reads below`status, below`actions, below`depends, below`requiredBy, below`computed
  {
    forall k :: 0 <= k < |items| ==>
      assert forall j :: 0 <= j < |parts[k]| - 1 ==> parts[k][j] in BelowRoots(parts);
      Stable(items[k], roots[k], parts[k][..|parts[k]| - 1])
  }

  lemma {:induction false} NoNulls(roots: seq<Action>)
    ensures Items(roots) == roots
    decreases |roots|
  {
    if roots != [] {
      NoNulls(roots[1..]);
    }
  }

  lemma {:induction false} InConcat(parts: seq<seq<Action>>, k: nat)
    requires k < |parts|
    ensures forall o :: o in parts[k] ==> o in Concat(parts)
    decreases |parts|
  {
    if k > 0 {
      InConcat(parts[1..], k - 1);
    }
  }

  lemma {:induction false} BelowIn(parts: seq<seq<Action>>)
    ensures forall o :: o in BelowRoots(parts) ==> o in Concat(parts)
  {
    forall o | o in BelowRoots(parts) ensures o in Concat(parts) {
      var k, j :| 0 <= k < |parts| && 0 <= j < |parts[k]| - 1 && parts[k][j] == o;
      InConcat(parts, k);
    }
  }

  lemma {:induction false} RootsIn<Op>(items: seq<Plan<Op>>, parts: seq<seq<Action>>, roots: seq<Action>)
    requires Parts(items, parts, roots)
    ensures forall a :: a in roots ==> a in Concat(parts)
    decreases |items|
  {
    if items != [] {
      PartsTail(items, parts, roots);
      RootsIn(items[1..], parts[1..], roots[1..]);
    }
  }

  ghost predicate NoneIn(part: seq<Action>, others: seq<Action>) {
    forall o :: o in part ==> o !in others
  }

  ghost predicate Apart(below: set<Action>, roots: seq<Action>) {
    forall o :: o in below ==> o !in roots
  }

  lemma {:induction false} DistinctJoin(a: seq<Action>, b: seq<Action>)
    requires Distinct(a) && Distinct(b) && NoneIn(a, b)
    ensures Distinct(a + b)
  {
    forall i, j | 0 <= i < j < |a + b| ensures (a + b)[i] != (a + b)[j] {
      if i < |a| <= j {
        assert a[i] in a && b[j - |a|] in b;
      }
    }
  }

  lemma {:induction false} DistinctOne(a: Action)
    ensures Distinct([a])
  {
  }

  lemma {:induction false} NoParts()
    ensures Distinct([]) && Distinct(Concat([])) && BelowRoots([]) == {}
  {
  }

  lemma {:induction false} ApartMeans(below: set<Action>, roots: seq<Action>)
    requires Apart(below, roots)
    ensures forall o :: o in below ==> o !in roots
  {
  }

  lemma {:induction false} DistinctLast(part: seq<Action>)
    requires Distinct(part) && part != []
    ensures part[|part| - 1] !in part[..|part| - 1]
  {
  }

  /** One more item, made of new objects. */
  lemma {:induction false} AddPart<Op>(items: seq<Plan<Op>>, part: seq<Action>, root: Action, parts: seq<seq<Action>>, roots: seq<Action>)
    requires Parts(items, parts, roots) && Apart(BelowRoots(parts), roots) && Distinct(roots) && Distinct(Concat(parts))
    requires part != [] && Distinct(part) && root == part[|part| - 1] && NoneIn(part, Concat(parts))
    ensures Apart(BelowRoots([part] + parts), [root] + roots)
    ensures Distinct([root] + roots) && Distinct(Concat([part] + parts))
  {
    hide Distinct, Parts;
    RootsIn(items, parts, roots);
    BelowIn(parts);
    DistinctLast(part);
    assert ([part] + parts)[1..] == parts && root in part;
    DistinctJoin(part, Concat(parts));
    DistinctOne(root);
    DistinctJoin([root], roots);
    forall o | o in BelowRoots([part] + parts) ensures o !in [root] + roots {
      var k, j :| 0 <= k < |[part] + parts| && 0 <= j < |([part] + parts)[k]| - 1 && ([part] + parts)[k][j] == o;
      if k == 0 {
        assert o == part[..|part| - 1][j] && o in part;
      } else {
        assert parts[k - 1][j] in BelowRoots(parts);
      }
    }
  }

  /** Makes the items of a group. */
  method MakeItems<Op>(items: seq<Plan<Op>>) returns (roots: seq<Action>, ghost parts: seq<seq<Action>>)
    ensures Parts(items, parts, roots) && Apart(BelowRoots(parts), roots) && Distinct(roots) && Distinct(Concat(parts))
    ensures forall k :: 0 <= k < |items| ==> Forms(items[k], parts[k], [], [])
    ensures forall o :: o in Concat(parts) ==> fresh(o)
    ensures forall k :: 0 <= k < |roots| ==> fresh(roots[k])
    decreases items, 1, |items|
  {
    hide Forms, Distinct, BelowRoots;
    if items == [] {
      roots, parts := [], [];
      NoParts();
    } else {
      var root, nodes := MakeObjects(items[0]);
      assert root in nodes;
      var rest, others := MakeItems(items[1..]);
      assert NoneIn(nodes, Concat(others));
      AddPart(items[1..], nodes, root, others, rest);
      roots, parts := [root] + rest, [nodes] + others;
      assert parts[1..] == others;
      forall k | 0 <= k < |items| ensures Forms(items[k], parts[k], [], []) {
        if k > 0 {
          assert Forms(items[1..][k - 1], others[k - 1], [], []);
        }
      }
    }
  }

  /** The objects of a plan, as nested calls of the combinators make them. */
  method MakeObjects<Op>(p: Plan<Op>) returns (root: Action, ghost nodes: seq<Action>)
    ensures |nodes| == Count(p) && Forms(p, nodes, [], []) && root == nodes[|nodes| - 1] && Distinct(nodes)
    ensures forall o :: o in nodes ==> fresh(o)
    decreases p, 0, 0
  {
    match p
    case Single(_) =>
      root := new Action(false);
      nodes := [root];
    case Group(inSequence, items) =>
      root, nodes := MakeGroupObjects(inSequence, items);
  }

  method MakeGroupObjects<Op>(inSequence: bool, items: seq<Plan<Op>>) returns (root: Action, ghost nodes: seq<Action>)
    ensures |nodes| == Count(Group(inSequence, items)) && Forms(Group(inSequence, items), nodes, [], [])
    ensures root == nodes[|nodes| - 1] && Distinct(nodes)
    ensures forall o :: o in nodes ==> fresh(o)
    decreases items, 2
  {
    hide *;
    var roots, parts := MakeItems(items);
    ghost var below := Concat(parts);
    assert allocated(below);
    root := MakeGroup(inSequence, items, roots, parts);
    assert root !in below;
    GroupForms(inSequence, items, roots, parts, root);
    nodes := Concat(parts) + [root];
  }

  lemma {:induction false} GroupForms<Op>(inSequence: bool, items: seq<Plan<Op>>, roots: seq<Action>, parts: seq<seq<Action>>, root: Action)
    requires Parts(items, parts, roots) && FormsAll(inSequence, items, Concat(parts), [])
    requires root.isGroup && root.actions == roots && Unlinked(root)
    ensures |Concat(parts)| + 1 == Count(Group(inSequence, items)) && Forms(Group(inSequence, items), Concat(parts) + [root], [], [])
    ensures Distinct(Concat(parts)) && root !in Concat(parts) ==> Distinct(Concat(parts) + [root])
  {
    hide FormsAll;
    PartsJoin(items, parts, roots);
    assert (Concat(parts) + [root])[..|Concat(parts)|] == Concat(parts);
  }

  /** `actionSequence` or `actionGroup` on the items of a plan. */
  method MakeGroup<Op>(inSequence: bool, items: seq<Plan<Op>>, roots: seq<Action>, ghost parts: seq<seq<Action>>) returns (group: Action)
    requires Parts(items, parts, roots) && Apart(BelowRoots(parts), roots) && Distinct(roots)
    requires forall k :: 0 <= k < |items| ==> Forms(items[k], parts[k], [], [])
    modifies roots`depends, roots`requiredBy
    ensures FormsAll(inSequence, items, Concat(parts), [])
    ensures fresh(group) && group.isGroup && group.actions == roots && Unlinked(group)
  {
    hide *;
    NoNulls(roots);
    DependsAre(roots);
    RequiredByAre(roots);
    ghost var depends, requiredBy := Depends(roots), RequiredBy(roots);
    ghost var below := BelowRoots(parts);
    FormedParts(items, parts, roots);
    assert AllStable(items, parts, roots, below);
    forall k | 0 <= k < |roots| ensures depends[k] == [] && requiredBy[k] == [] {
      assert roots[k].depends == [] && roots[k].requiredBy == [];
    }
    ApartMeans(below, roots);
    if inSequence {
      group := ActionAssembly.ActionSequence(roots);
      assert AllStable(items, parts, roots, below);
      LinkedParts(items, parts, roots, depends, requiredBy);
    } else {
      group := ActionAssembly.ActionGroup(roots);
      UnlinkedParts(items, parts, roots);
    }
  }

  lemma {:induction false} FormedParts<Op>(items: seq<Plan<Op>>, parts: seq<seq<Action>>, roots: seq<Action>)
    requires Parts(items, parts, roots)
    requires forall k :: 0 <= k < |items| ==> Forms(items[k], parts[k], [], [])
    ensures AllStable(items, parts, roots, BelowRoots(parts))
    ensures forall k :: 0 <= k < |roots| ==> roots[k].depends == [] && roots[k].requiredBy == []
  {
    hide Forms, Stable;
    forall k | 0 <= k < |items|
      ensures Stable(items[k], roots[k], parts[k][..|parts[k]| - 1]) && roots[k].depends == [] && roots[k].requiredBy == []
    {
      StableForms(items[k], parts[k], [], []);
    }
  }

  lemma {:induction false} LinksAre(roots: seq<Action>, depends: seq<seq<Action>>, requiredBy: seq<seq<Action>>, k: nat)
    requires LinkedUpTo(roots, |roots|, depends, requiredBy) && k < |roots| && depends[k] == [] && requiredBy[k] == []
    ensures roots[k].depends == Previous(roots, k) && roots[k].requiredBy == Following(roots, k)
    ensures k == 0 ==> Previous(roots, k) == []
  {
    DependsAre(roots);
    RequiredByAre(roots);
  }

  lemma {:induction false} LinkedParts<Op>(items: seq<Plan<Op>>, parts: seq<seq<Action>>, roots: seq<Action>,
                                           depends: seq<seq<Action>>, requiredBy: seq<seq<Action>>)
    requires Parts(items, parts, roots) && AllStable(items, parts, roots, BelowRoots(parts))
    requires |depends| == |requiredBy| == |roots| && forall k :: 0 <= k < |roots| ==> depends[k] == [] && requiredBy[k] == []
    requires LinkedUpTo(roots, |roots|, depends, requiredBy)
    ensures FormsAll(true, items, Concat(parts), [])
  {
    hide Forms, Stable, FormsAll, LinkedUpTo, Previous, Following;
    forall k | 0 <= k < |items|
      ensures Forms(items[k], parts[k], if k == 0 then [] else IfSo(true, Previous(roots, k)), IfSo(true, Following(roots, k)))
    {
      LinksAre(roots, depends, requiredBy, k);
      StableForms(items[k], parts[k], roots[k].depends, roots[k].requiredBy);
    }
    Together(true, items, parts, roots, []);
  }

  lemma {:induction false} UnlinkedParts<Op>(items: seq<Plan<Op>>, parts: seq<seq<Action>>, roots: seq<Action>)
    requires Parts(items, parts, roots) && AllStable(items, parts, roots, BelowRoots(parts))
    requires forall k :: 0 <= k < |roots| ==> roots[k].depends == [] && roots[k].requiredBy == []
    ensures FormsAll(false, items, Concat(parts), [])
  {
    hide Forms, Stable, FormsAll;
    forall k | 0 <= k < |items|
      ensures Forms(items[k], parts[k], if k == 0 then [] else IfSo(false, Previous(roots, k)), IfSo(false, Following(roots, k)))
    {
      StableForms(items[k], parts[k], [], []);
    }
    Together(false, items, parts, roots, []);
  }

  /** A plan's objects: pending, in a graph that is the plan's. */
  method Assemble<Op>(p: Plan<Op>) returns (root: Action, ghost nodes: seq<Action>)
    ensures Represents(ToGraph(p), nodes) && root == nodes[Root(ToGraph(p))]
    ensures forall i :: 0 <= i < |nodes| ==> fresh(nodes[i]) && nodes[i].status == Pending
  {
    hide Forms;
    root, nodes := MakeObjects(p);
    assert forall i :: 0 <= i < |nodes| ==> nodes[i] in nodes;
    forall i | 0 <= i < |nodes| {
      nodes[i].place := i;
    }
    FormsGraph(p, nodes);
    FormsPending(p, nodes, [], []);
  }
}
