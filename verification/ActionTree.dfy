/**
  Plans as the combinators `single`, `actionGroup` and `actionSequence` build
  them, and the action graph that a plan becomes.
*/
module ActionTree {
  import opened ActionGraph
  import opened ActionInvariant
  import opened ActionRuns

  datatype Plan<Op> =
    | Single(op: Op)
    | Group(inSequence: bool, items: seq<Plan<Op>>)

  /** The actions of a list that are not null. */
  function NonNull<Op>(actions: seq<Option<Plan<Op>>>): (r: seq<Plan<Op>>)
    ensures |r| <= |actions|
  {
    if actions == [] then []
    else (if actions[0].Some? then [actions[0].value] else []) + NonNull(actions[1..])
  }

  /** `Action.actionSequence`: each action waits for the one before it; null ones are left out. */
  function ActionSequence<Op>(actions: seq<Option<Plan<Op>>>): Plan<Op> {
    Group(true, NonNull(actions))
  }

  /** `Action.actionGroup`; null actions are left out. */
  function ActionGroup<Op>(actions: seq<Option<Plan<Op>>>): Plan<Op> {
    Group(false, NonNull(actions))
  }

  // ------------------------------------------------------------------------
  // Numbering
  // ------------------------------------------------------------------------

  function Count<Op>(p: Plan<Op>): (n: nat)
    ensures n > 0
  {
    match p
    case Single(_) => 1
    case Group(_, items) => CountAll(items) + 1
  }

  function CountAll<Op>(items: seq<Plan<Op>>): nat {
    if items == [] then 0 else Count(items[0]) + CountAll(items[1..])
  }

  /** The numbers of the items of a group whose first action has number `base`. */
  function Roots<Op>(items: seq<Plan<Op>>, base: nat): (r: seq<Id>)
    ensures |r| == |items|
  {
    if items == [] then []
    else [base + Count(items[0]) - 1] + Roots(items[1..], base + Count(items[0]))
  }

  /** The dependency of an item on the one with number `root` before it. */
  function Link(inSequence: bool, root: Id): seq<Id> {
    if inSequence then [root] else []
  }

  /** What requires the first item, which has number `root`: the second item. */
  function After<Op>(inSequence: bool, items: seq<Plan<Op>>, root: Id): seq<Id> {
    if inSequence && |items| > 1 then [root + Count(items[1])] else []
  }

  function Join(a: Graph, b: Graph): Graph {
    Graph(a.nodes + b.nodes, a.up + b.up)
  }

  /** The part of the graph for `p`, numbered from `base`, held by group `up`. */
  function Build<Op>(p: Plan<Op>, base: nat, up: Id, depends: seq<Id>, requiredBy: seq<Id>): (g: Graph)
    ensures |g.nodes| == |g.up| == Count(p)
    decreases p, 0, 0
  {
    match p
    case Single(_) => Graph([Node(false, [], depends, requiredBy, [])], [up])
    case Group(inSequence, items) =>
      Join(
        BuildAll(inSequence, items, base, base + CountAll(items), []),
        Graph([Node(true, Roots(items, base), depends, requiredBy, [])], [up]))
  }

  /** The items of a group one after the other; in a sequence each depends on the one before. */
  function BuildAll<Op>(inSequence: bool, items: seq<Plan<Op>>, base: nat, up: Id, depends: seq<Id>): (g: Graph)
    ensures |g.nodes| == |g.up| == CountAll(items)
    decreases items, 1, |items|
  {
    if items == [] then
      Graph([], [])
    else
      var root := base + Count(items[0]) - 1;
      Join(
        Build(items[0], base, up, depends, After(inSequence, items, root)),
        BuildAll(inSequence, items[1..], root + 1, up, Link(inSequence, root)))
  }

  function ToGraph<Op>(p: Plan<Op>): Graph {
    Build(p, 0, Count(p), [], [])
  }

  // ------------------------------------------------------------------------
  // Where a plan lies in a graph
  // ------------------------------------------------------------------------

  /** Plan `p` occupies the numbers from `base` on, with these links at its root. */
  ghost predicate Placed<Op>(g: Graph, p: Plan<Op>, base: nat, up: Id, depends: seq<Id>, requiredBy: seq<Id>)
    decreases p, 0, 0
  {
    var root := base + Count(p) - 1;
    && root < Size(g) == |g.up|
    && g.up[root] == up
    && g.nodes[root].isGroup == p.Group?
    && g.nodes[root].depends == depends
    && g.nodes[root].requiredBy == requiredBy
    && match p
       case Single(_) => g.nodes[root].kids == []
       case Group(inSequence, items) =>
         && g.nodes[root].kids == Roots(items, base)
         && PlacedAll(g, inSequence, items, base, root, [])
  }

  ghost predicate PlacedAll<Op>(g: Graph, inSequence: bool, items: seq<Plan<Op>>, base: nat, up: Id, depends: seq<Id>)
    decreases items, 1, |items|
  {
    items != [] ==>
      var root := base + Count(items[0]) - 1;
      && Placed(g, items[0], base, up, depends, After(inSequence, items, root))
      && PlacedAll(g, inSequence, items[1..], root + 1, up, Link(inSequence, root))
  }

  /** Computed dependencies are single actions of the graph, and only single actions have any. */
  ghost predicate ComputedOk(g: Graph) {
    forall i :: 0 <= i < Size(g) ==>
      && (g.nodes[i].isGroup ==> g.nodes[i].computed == [])
      && (forall c :: c in g.nodes[i].computed ==> c < Size(g) && !g.nodes[c].isGroup)
  }

  /** `g` is the graph of plan `p`, with any computed dependencies added. */
  ghost predicate Realizes<Op>(g: Graph, p: Plan<Op>) {
    Size(g) == Count(p) && Placed(g, p, 0, Count(p), [], []) && ComputedOk(g)
  }

  // ------------------------------------------------------------------------
  // The graph of a plan is well formed
  // ------------------------------------------------------------------------

  /** What the surroundings of an item promise about its root. */
  ghost predicate Fitted(g: Graph, root: Id, base: nat, up: Id, depends: seq<Id>, requiredBy: seq<Id>) {
    && Size(g) == |g.up|
    && root < up <= Size(g)
    && (up < Size(g) ==> root in g.nodes[up].kids)
    && (up == Size(g) <==> root == Size(g) - 1)
    && (forall d :: d in depends ==> d < base && d < Size(g) && g.up[d] == up && root in g.nodes[d].requiredBy)
    && (forall r :: r in requiredBy ==> root < r < Size(g) && g.up[r] == up && root in g.nodes[r].depends)
  }

  /** What the group and the item before promise about the next items. */
  ghost predicate ItemsFitted<Op>(g: Graph, items: seq<Plan<Op>>, base: nat, up: Id, depends: seq<Id>) {
    && up < Size(g) == |g.up| && base + CountAll(items) <= up
    && (forall k :: k in Roots(items, base) ==> k in g.nodes[up].kids)
    && (items != [] ==> forall d :: d in depends ==>
          d < base && d < Size(g) && g.up[d] == up && base + Count(items[0]) - 1 in g.nodes[d].requiredBy)
  }

  lemma {:induction false} RootsAt<Op>(items: seq<Plan<Op>>, base: nat)
    ensures forall a :: 0 <= a < |items| ==> base <= Roots(items, base)[a] < base + CountAll(items)
    ensures forall a, b :: 0 <= a < b < |items| ==> Roots(items, base)[a] < Roots(items, base)[b]
    decreases |items|
  {
    if items != [] {
      RootsAt(items[1..], base + Count(items[0]));
    }
  }

  /** The items of a group are held by it. */
  lemma {:induction false} ItemsUp<Op>(g: Graph, inSequence: bool, items: seq<Plan<Op>>, base: nat, up: Id, depends: seq<Id>)
    requires PlacedAll(g, inSequence, items, base, up, depends)
    ensures forall k :: k in Roots(items, base) ==> k < Size(g) == |g.up| && g.up[k] == up
    decreases |items|
  {
    if items != [] {
      var root := base + Count(items[0]) - 1;
      ItemsUp(g, inSequence, items[1..], root + 1, up, Link(inSequence, root));
    }
  }

  lemma {:induction false} PlacedOk<Op>(g: Graph, p: Plan<Op>, base: nat, up: Id, depends: seq<Id>, requiredBy: seq<Id>)
    requires Placed(g, p, base, up, depends, requiredBy) && ComputedOk(g)
    requires Fitted(g, base + Count(p) - 1, base, up, depends, requiredBy)
    ensures forall i :: base <= i < base + Count(p) ==> NodeOk(g, i)
    decreases p, 0, 0
  {
    var root := base + Count(p) - 1;
    if p.Group? {
      RootsAt(p.items, base);
      ItemsUp(g, p.inSequence, p.items, base, root, []);
      PlacedAllOk(g, p.inSequence, p.items, base, root, []);
    }
    assert NodeOk(g, root);
  }

  lemma {:induction false} PlacedAllOk<Op>(g: Graph, inSequence: bool, items: seq<Plan<Op>>, base: nat, up: Id, depends: seq<Id>)
    requires PlacedAll(g, inSequence, items, base, up, depends) && ComputedOk(g)
    requires ItemsFitted(g, items, base, up, depends)
    ensures forall i :: base <= i < base + CountAll(items) ==> NodeOk(g, i)
    decreases items, 1, |items|
  {
    hide NodeOk, Fitted, ItemsFitted, ComputedOk;
    if items != [] {
      var root := base + Count(items[0]) - 1;
      FirstFits(g, inSequence, items, base, up, depends);
      PlacedOk(g, items[0], base, up, depends, After(inSequence, items, root));
      PlacedAllOk(g, inSequence, items[1..], root + 1, up, Link(inSequence, root));
    }
  }

  lemma {:induction false} FirstFits<Op>(g: Graph, inSequence: bool, items: seq<Plan<Op>>, base: nat, up: Id, depends: seq<Id>)
    requires PlacedAll(g, inSequence, items, base, up, depends)
    requires items != [] && ItemsFitted(g, items, base, up, depends)
    ensures var root := base + Count(items[0]) - 1;
            && Fitted(g, root, base, up, depends, After(inSequence, items, root))
            && ItemsFitted(g, items[1..], root + 1, up, Link(inSequence, root))
  {
    var root := base + Count(items[0]) - 1;
    RestHeld(g, items, base, up);
    FirstRoot(g, inSequence, items, base, up, depends);
    SecondRoot(g, inSequence, items, base, up, depends);
    hide PlacedAll, Roots, SecondWaits;
    FirstFitted(g, inSequence, items, base, up, depends);
    RestFitted(g, inSequence, items, base, up);
  }

  lemma {:induction false} FirstRoot<Op>(g: Graph, inSequence: bool, items: seq<Plan<Op>>, base: nat, up: Id, depends: seq<Id>)
    requires items != [] && PlacedAll(g, inSequence, items, base, up, depends)
    ensures var root := base + Count(items[0]) - 1;
            && root < Size(g) == |g.up| && g.up[root] == up && g.nodes[root].depends == depends
            && g.nodes[root].requiredBy == After(inSequence, items, root)
  {
  }

  ghost predicate SecondWaits<Op>(g: Graph, inSequence: bool, items: seq<Plan<Op>>, base: nat, up: Id) {
    |items| > 1 ==>
      var root := base + Count(items[0]) - 1;
      var next := root + Count(items[1]);
      next < Size(g) == |g.up| && g.up[next] == up && g.nodes[next].depends == Link(inSequence, root)
  }

  lemma {:induction false} SecondRoot<Op>(g: Graph, inSequence: bool, items: seq<Plan<Op>>, base: nat, up: Id, depends: seq<Id>)
    requires items != [] && PlacedAll(g, inSequence, items, base, up, depends)
    ensures SecondWaits(g, inSequence, items, base, up)
  {
    if |items| > 1 {
      var root := base + Count(items[0]) - 1;
      assert PlacedAll(g, inSequence, items[1..], root + 1, up, Link(inSequence, root));
      hide PlacedAll;
      FirstRoot(g, inSequence, items[1..], root + 1, up, Link(inSequence, root));
    }
  }

  lemma {:induction false} FirstFitted<Op>(g: Graph, inSequence: bool, items: seq<Plan<Op>>, base: nat, up: Id, depends: seq<Id>)
    requires items != [] && ItemsFitted(g, items, base, up, depends) && SecondWaits(g, inSequence, items, base, up)
    requires base + Count(items[0]) - 1 in g.nodes[up].kids
    ensures Fitted(g, base + Count(items[0]) - 1, base, up, depends,
              After(inSequence, items, base + Count(items[0]) - 1))
  {
  }

  lemma {:induction false} RestFitted<Op>(g: Graph, inSequence: bool, items: seq<Plan<Op>>, base: nat, up: Id)
    requires items != [] && up < Size(g) == |g.up| && base + CountAll(items) <= up
    requires var root := base + Count(items[0]) - 1;
             && root < Size(g) && g.up[root] == up && g.nodes[root].requiredBy == After(inSequence, items, root)
             && forall k :: k in Roots(items[1..], root + 1) ==> k in g.nodes[up].kids
    ensures var root := base + Count(items[0]) - 1;
            ItemsFitted(g, items[1..], root + 1, up, Link(inSequence, root))
  {
    var root := base + Count(items[0]) - 1;
    var rest := items[1..];
    if rest != [] && inSequence {
      assert rest[0] == items[1];
      assert g.nodes[root].requiredBy == [root + Count(rest[0])];
      assert root + Count(rest[0]) in g.nodes[root].requiredBy;
    }
  }

  lemma {:induction false} RestHeld<Op>(g: Graph, items: seq<Plan<Op>>, base: nat, up: Id)
    requires up < Size(g) && items != [] && forall k :: k in Roots(items, base) ==> k in g.nodes[up].kids
    ensures var root := base + Count(items[0]) - 1;
            && root in g.nodes[up].kids
            && forall k :: k in Roots(items[1..], root + 1) ==> k in g.nodes[up].kids
  {
    var root := base + Count(items[0]) - 1;
    assert Roots(items, base) == [root] + Roots(items[1..], root + 1);
    assert root in Roots(items, base);
    forall k | k in Roots(items[1..], root + 1) ensures k in g.nodes[up].kids {
      assert k in Roots(items, base);
    }
  }

  /** Every graph of a plan is well formed, whatever dependencies are computed. */
  lemma {:induction false} PlanWellFormed<Op>(g: Graph, p: Plan<Op>)
    requires Realizes(g, p)
    ensures WellFormed(g)
  {
    PlacedOk(g, p, 0, Count(p), [], []);
  }

  // ------------------------------------------------------------------------
  // Every plan has a graph
  // ------------------------------------------------------------------------

  ghost predicate HoldsAt(g: Graph, b: Graph, base: nat, i: Id)
    requires |b.nodes| == |b.up| && base <= i < base + |b.nodes| <= Size(g) == |g.up|
  {
    g.nodes[i] == b.nodes[i - base] && g.up[i] == b.up[i - base]
  }

  /** Graph `g` holds the part `b` from number `base` on. */
  ghost predicate Holds(g: Graph, b: Graph, base: nat) {
    && |b.nodes| == |b.up|
    && base + |b.nodes| <= Size(g) == |g.up|
    && forall i :: base <= i < base + |b.nodes| ==> HoldsAt(g, b, base, i)
  }

  lemma {:induction false} HoldsJoin(g: Graph, a: Graph, b: Graph, base: nat)
    requires |a.nodes| == |a.up| && |b.nodes| == |b.up| && Holds(g, Join(a, b), base)
    ensures Holds(g, a, base) && Holds(g, b, base + |a.nodes|)
  {
    var j := Join(a, b);
    forall i | base <= i < base + |a.nodes| ensures HoldsAt(g, a, base, i) {
      assert HoldsAt(g, j, base, i);
    }
    var mid := base + |a.nodes|;
    forall i | mid <= i < mid + |b.nodes| ensures HoldsAt(g, b, mid, i) {
      assert HoldsAt(g, j, base, i);
    }
  }

  lemma {:induction false} BuildPlaced<Op>(g: Graph, p: Plan<Op>, base: nat, up: Id, depends: seq<Id>, requiredBy: seq<Id>)
    requires Holds(g, Build(p, base, up, depends, requiredBy), base)
    ensures Placed(g, p, base, up, depends, requiredBy)
    decreases p, 0, 0
  {
    var root := base + Count(p) - 1;
    assert HoldsAt(g, Build(p, base, up, depends, requiredBy), base, root);
    if p.Group? {
      var rest := BuildAll(p.inSequence, p.items, base, root, []);
      HoldsJoin(g, rest, Graph([Node(true, Roots(p.items, base), depends, requiredBy, [])], [up]), base);
      BuildAllPlaced(g, p.inSequence, p.items, base, root, []);
    }
  }

  lemma {:induction false} SplitItems<Op>(g: Graph, inSequence: bool, items: seq<Plan<Op>>, base: nat, up: Id, depends: seq<Id>)
    requires items != [] && Holds(g, BuildAll(inSequence, items, base, up, depends), base)
    ensures var root := base + Count(items[0]) - 1;
            && Holds(g, Build(items[0], base, up, depends, After(inSequence, items, root)), base)
            && Holds(g, BuildAll(inSequence, items[1..], root + 1, up, Link(inSequence, root)), root + 1)
  {
    var root := base + Count(items[0]) - 1;
    HoldsJoin(g, Build(items[0], base, up, depends, After(inSequence, items, root)),
              BuildAll(inSequence, items[1..], root + 1, up, Link(inSequence, root)), base);
  }

  lemma {:induction false} BuildAllPlaced<Op>(g: Graph, inSequence: bool, items: seq<Plan<Op>>, base: nat, up: Id, depends: seq<Id>)
    requires Holds(g, BuildAll(inSequence, items, base, up, depends), base)
    ensures PlacedAll(g, inSequence, items, base, up, depends)
    decreases items, 1, |items|
  {
    if items != [] {
      var root := base + Count(items[0]) - 1;
      SplitItems(g, inSequence, items, base, up, depends);
      BuildPlaced(g, items[0], base, up, depends, After(inSequence, items, root));
      BuildAllPlaced(g, inSequence, items[1..], root + 1, up, Link(inSequence, root));
    }
  }

  lemma {:induction false} BuildComputesNothing<Op>(p: Plan<Op>, base: nat, up: Id, depends: seq<Id>, requiredBy: seq<Id>)
    ensures forall nd :: nd in Build(p, base, up, depends, requiredBy).nodes ==> nd.computed == []
    decreases p, 0, 0
  {
    if p.Group? {
      BuildAllComputesNothing(p.inSequence, p.items, base, base + CountAll(p.items), []);
    }
  }

  lemma {:induction false} BuildAllComputesNothing<Op>(inSequence: bool, items: seq<Plan<Op>>, base: nat, up: Id, depends: seq<Id>)
    ensures forall nd :: nd in BuildAll(inSequence, items, base, up, depends).nodes ==> nd.computed == []
    decreases items, 1, |items|
  {
    if items != [] {
      var root := base + Count(items[0]) - 1;
      BuildComputesNothing(items[0], base, up, depends, After(inSequence, items, root));
      BuildAllComputesNothing(inSequence, items[1..], root + 1, up, Link(inSequence, root));
    }
  }

  /** The graph built for a plan realizes it. */
  lemma {:induction false} PlanHasGraph<Op>(p: Plan<Op>)
    ensures Realizes(ToGraph(p), p)
  {
    var g := ToGraph(p);
    BuildComputesNothing(p, 0, Count(p), [], []);
    forall i | 0 <= i < Size(g) ensures g.nodes[i].computed == [] {
      assert g.nodes[i] in g.nodes;
    }
    forall i | 0 <= i < |g.nodes| ensures HoldsAt(g, g, 0, i) {
    }
    BuildPlaced(g, p, 0, Count(p), [], []);
  }
}
