/**
  What the engine guarantees for the graph of a plan, said about the plan: which
  plans are tame, and which single actions precede which.
*/
module PlanOrder {
  import opened ActionGraph
  import opened ActionInvariant
  import opened ActionRuns
  import opened ActionTree

  /** A plan with nothing to run. */
  predicate HollowPlan<Op>(p: Plan<Op>) {
    p.Group? && forall a | 0 <= a < |p.items| :: HollowPlan(p.items[a])
  }

  /** In this sequence no hollow item stands between two items that run something. */
  predicate NoGap<Op>(items: seq<Plan<Op>>) {
    forall h | 0 < h < |items| - 1 && HollowPlan(items[h]) ::
      (forall k | 0 <= k < h :: HollowPlan(items[k])) || (forall k | h < k < |items| :: HollowPlan(items[k]))
  }

  predicate TamePlan<Op>(p: Plan<Op>) {
    match p
    case Single(_) => true
    case Group(inSequence, items) =>
      (inSequence ==> NoGap(items)) && forall a | 0 <= a < |items| :: TamePlan(items[a])
  }

  // ------------------------------------------------------------------------
  // Items in the graph
  // ------------------------------------------------------------------------

  /** The first number of item number `a`. */
  function ItemBase<Op>(items: seq<Plan<Op>>, base: nat, a: nat): nat
    requires a < |items|
  {
    if a == 0 then base else ItemBase(items[1..], base + Count(items[0]), a - 1)
  }

  /** Item number `a` of a placed group, with the links at its root. */
  lemma {:induction false} ItemPlaced<Op>(g: Graph, inSequence: bool, items: seq<Plan<Op>>, base: nat, up: Id,
                                          depends: seq<Id>, a: nat)
    returns (b: nat, dep: seq<Id>, req: seq<Id>)
    requires PlacedAll(g, inSequence, items, base, up, depends) && a < |items|
    ensures Placed(g, items[a], b, up, dep, req)
    ensures b == ItemBase(items, base, a) && b + Count(items[a]) - 1 == Roots(items, base)[a]
    ensures base <= b && b + Count(items[a]) <= base + CountAll(items)
    ensures dep == if a == 0 then depends else Link(inSequence, Roots(items, base)[a - 1])
    decreases a
  {
    var root := base + Count(items[0]) - 1;
    if a == 0 {
      b, dep, req := base, depends, After(inSequence, items, root);
    } else {
      b, dep, req := ItemPlaced(g, inSequence, items[1..], root + 1, up, Link(inSequence, root), a - 1);
    }
  }

  lemma {:induction false} HollowAgrees<Op>(g: Graph, p: Plan<Op>, base: nat, up: Id, depends: seq<Id>, requiredBy: seq<Id>)
    requires WellFormed(g) && Placed(g, p, base, up, depends, requiredBy)
    ensures Hollow(g, base + Count(p) - 1) <==> HollowPlan(p)
    decreases p, 1
  {
    if p.Group? {
      var root := base + Count(p) - 1;
      var ids := Roots(p.items, base);
      forall a | 0 <= a < |p.items|
        ensures ids[a] < Size(g) && (Hollow(g, ids[a]) <==> HollowPlan(p.items[a]))
      {
        HollowItemAgrees(g, p, base, up, depends, requiredBy, a);
      }
      HollowByItems(g, root, p);
    }
  }

  lemma {:induction false} HollowItemAgrees<Op>(g: Graph, p: Plan<Op>, base: nat, up: Id, depends: seq<Id>, requiredBy: seq<Id>, a: nat)
    requires WellFormed(g) && Placed(g, p, base, up, depends, requiredBy) && p.Group? && a < |p.items|
    ensures var root := Roots(p.items, base)[a];
            root < Size(g) && (Hollow(g, root) <==> HollowPlan(p.items[a]))
    decreases p, 0
  {
    var b, dep, req := ItemPlaced(g, p.inSequence, p.items, base, base + Count(p) - 1, [], a);
    HollowAgrees(g, p.items[a], b, base + Count(p) - 1, dep, req);
  }

  lemma {:induction false} HollowByItems<Op>(g: Graph, root: Id, p: Plan<Op>)
    requires WellFormed(g) && root < Size(g) && p.Group? && g.nodes[root].isGroup
    requires |g.nodes[root].kids| == |p.items|
    requires forall a :: 0 <= a < |p.items| ==>
      g.nodes[root].kids[a] < Size(g) && (Hollow(g, g.nodes[root].kids[a]) <==> HollowPlan(p.items[a]))
    ensures Hollow(g, root) <==> HollowPlan(p)
  {
    var kids := g.nodes[root].kids;
    assert NodeOk(g, root);
    if HollowPlan(p) {
      forall k | k in kids ensures Hollow(g, k) {
        var a :| 0 <= a < |kids| && kids[a] == k;
      }
    } else {
      var a :| 0 <= a < |p.items| && !HollowPlan(p.items[a]);
      assert kids[a] in kids;
    }
  }

  /** The item of a placed group in which number `i` lies. */
  lemma {:induction false} ItemOf<Op>(items: seq<Plan<Op>>, base: nat, i: Id) returns (a: nat)
    requires base <= i < base + CountAll(items)
    ensures a < |items| && ItemBase(items, base, a) <= i < ItemBase(items, base, a) + Count(items[a])
    decreases |items|
  {
    if i < base + Count(items[0]) {
      a := 0;
    } else {
      var n := ItemOf(items[1..], base + Count(items[0]), i);
      a := n + 1;
    }
  }

  // ------------------------------------------------------------------------
  // Tame plans have tame graphs
  // ------------------------------------------------------------------------

  lemma {:induction false} ItemHollow<Op>(g: Graph, inSequence: bool, items: seq<Plan<Op>>, base: nat, up: Id, a: nat)
    requires WellFormed(g) && PlacedAll(g, inSequence, items, base, up, []) && a < |items|
    ensures var root := Roots(items, base)[a];
            && root < Size(g) && (Hollow(g, root) <==> HollowPlan(items[a]))
            && g.nodes[root].depends == if a == 0 then [] else Link(inSequence, Roots(items, base)[a - 1])
  {
    var b, dep, req := ItemPlaced(g, inSequence, items, base, up, [], a);
    HollowAgrees(g, items[a], b, up, dep, req);
  }

  lemma {:induction false} ItemExposed<Op>(g: Graph, inSequence: bool, items: seq<Plan<Op>>, base: nat, up: Id, a: nat)
    requires WellFormed(g) && PlacedAll(g, inSequence, items, base, up, []) && a < |items|
    requires Roots(items, base)[a] < Size(g) && Exposed(g, Roots(items, base)[a])
    ensures inSequence && HollowPlan(items[a]) && exists k :: 0 <= k < a && !HollowPlan(items[k])
    decreases a
  {
    ItemHollow(g, inSequence, items, base, up, a);
    if a > 0 {
      ItemHollow(g, inSequence, items, base, up, a - 1);
      var before := Roots(items, base)[a - 1];
      if !HollowPlan(items[a - 1]) {
      } else if inSequence {
        assert Exposed(g, before);
        ItemExposed(g, inSequence, items, base, up, a - 1);
      }
    }
  }

  lemma {:induction false} ItemTame<Op>(g: Graph, inSequence: bool, items: seq<Plan<Op>>, base: nat, up: Id, a: nat)
    requires WellFormed(g) && PlacedAll(g, inSequence, items, base, up, []) && a < |items|
    requires (inSequence ==> NoGap(items)) && Roots(items, base)[a] < Size(g)
    ensures TameAt(g, Roots(items, base)[a])
  {
    ItemHollow(g, inSequence, items, base, up, a);
    if a > 0 && !HollowPlan(items[a]) {
      ItemHollow(g, inSequence, items, base, up, a - 1);
      if Exposed(g, Roots(items, base)[a - 1]) {
        ItemExposed(g, inSequence, items, base, up, a - 1);
      }
    }
  }

  /** Every action below the root of a tame plan is tame. */
  lemma {:induction false} PlacedTame<Op>(g: Graph, p: Plan<Op>, base: nat, up: Id, depends: seq<Id>, requiredBy: seq<Id>, i: Id)
    requires WellFormed(g) && Placed(g, p, base, up, depends, requiredBy) && TamePlan(p)
    requires base <= i < base + Count(p) - 1
    ensures i < Size(g) && TameAt(g, i)
    decreases p
  {
    var root := base + Count(p) - 1;
    var a := ItemOf(p.items, base, i);
    var b, dep, req := ItemPlaced(g, p.inSequence, p.items, base, root, [], a);
    if i == Roots(p.items, base)[a] {
      ItemTame(g, p.inSequence, p.items, base, root, a);
    } else {
      PlacedTame(g, p.items[a], b, root, dep, req, i);
    }
  }

  lemma {:induction false} TamePlanTameGraph<Op>(g: Graph, p: Plan<Op>)
    requires Realizes(g, p) && TamePlan(p)
    ensures WellFormed(g) && Tame(g)
  {
    PlanWellFormed(g, p);
    forall i | 0 <= i < Size(g) ensures TameAt(g, i) {
      if i < Count(p) - 1 {
        PlacedTame(g, p, 0, Count(p), [], [], i);
      }
    }
  }

  // ------------------------------------------------------------------------
  // The order of a plan
  // ------------------------------------------------------------------------

  /** Number `b` lies in an earlier item than number `a` of some sequence of the plan. */
  ghost predicate Precedes<Op>(p: Plan<Op>, base: nat, b: Id, a: Id)
    decreases p, 0, 0
  {
    p.Group? && PrecedesIn(p.inSequence, p.items, base, b, a)
  }

  ghost predicate PrecedesIn<Op>(inSequence: bool, items: seq<Plan<Op>>, base: nat, b: Id, a: Id)
    decreases items, 1, |items|
  {
    items != [] &&
      var next := base + Count(items[0]);
      if a < next then Precedes(items[0], base, b, a)
      else if b < next then inSequence
      else PrecedesIn(inSequence, items[1..], next, b, a)
  }

  lemma {:induction false} UnderRootOf<Op>(g: Graph, p: Plan<Op>, base: nat, up: Id, depends: seq<Id>, requiredBy: seq<Id>, i: Id)
    requires WellFormed(g) && Placed(g, p, base, up, depends, requiredBy)
    requires base <= i < base + Count(p)
    ensures Under(g, i, base + Count(p) - 1)
    decreases p
  {
    var root := base + Count(p) - 1;
    if i != root {
      var a := ItemOf(p.items, base, i);
      var b, dep, req := ItemPlaced(g, p.inSequence, p.items, base, root, [], a);
      UnderRootOf(g, p.items[a], b, root, dep, req, i);
      UnderThen(g, i, Roots(p.items, base)[a]);
    }
  }

  /** In a sequence each item is downstream of all items before it. */
  lemma {:induction false} ItemsDownstream<Op>(g: Graph, items: seq<Plan<Op>>, base: nat, up: Id, x: nat, y: nat)
    requires WellFormed(g) && PlacedAll(g, true, items, base, up, []) && x < y < |items|
    ensures var ids := Roots(items, base);
            ids[x] < Size(g) && ids[y] < Size(g) && Downstream(g, ids[x], ids[y])
    decreases y
  {
    ItemHollow(g, true, items, base, up, y);
    ItemHollow(g, true, items, base, up, x);
    var ids := Roots(items, base);
    assert ids[y - 1] in g.nodes[ids[y]].depends;
    if x < y - 1 {
      ItemsDownstream(g, items, base, up, x, y - 1);
    }
  }

  /** The two items in which one number precedes another. */
  lemma {:induction false} PrecedesItems<Op>(inSequence: bool, items: seq<Plan<Op>>, base: nat, b: Id, a: Id)
    returns (x: nat, y: nat)
    requires base <= b < a < base + CountAll(items) && PrecedesIn(inSequence, items, base, b, a)
    ensures x <= y < |items|
    ensures ItemBase(items, base, x) <= b < ItemBase(items, base, x) + Count(items[x])
    ensures ItemBase(items, base, y) <= a < ItemBase(items, base, y) + Count(items[y])
    ensures if x == y then Precedes(items[x], ItemBase(items, base, x), b, a) else inSequence
    decreases |items|
  {
    var next := base + Count(items[0]);
    if a < next {
      x, y := 0, 0;
    } else if b < next {
      x := 0;
      y := ItemOf(items, base, a);
    } else {
      x, y := PrecedesItems(inSequence, items[1..], next, b, a);
      x, y := x + 1, y + 1;
    }
  }

  /** The order of the plan is kept by the engine's graph. */
  lemma {:induction false} PrecedesLeads<Op>(g: Graph, p: Plan<Op>, base: nat, up: Id, depends: seq<Id>, requiredBy: seq<Id>,
                                                b: Id, a: Id)
    requires WellFormed(g) && Placed(g, p, base, up, depends, requiredBy)
    requires base <= b < a < base + Count(p) && !g.nodes[a].isGroup && Precedes(p, base, b, a)
    ensures Leads(g, b, a)
    decreases p
  {
    var root := base + Count(p) - 1;
    var x, y := PrecedesItems(p.inSequence, p.items, base, b, a);
    if x == y {
      var xBase, xDep, xReq := ItemPlaced(g, p.inSequence, p.items, base, root, [], x);
      PrecedesLeads(g, p.items[x], xBase, root, xDep, xReq, b, a);
    } else {
      UnderItem(g, p.inSequence, p.items, base, root, x, b);
      UnderItem(g, p.inSequence, p.items, base, root, y, a);
      ItemsDownstream(g, p.items, base, root, x, y);
    }
  }

  lemma {:induction false} UnderItem<Op>(g: Graph, inSequence: bool, items: seq<Plan<Op>>, base: nat, up: Id, x: nat, i: Id)
    requires WellFormed(g) && PlacedAll(g, inSequence, items, base, up, []) && x < |items|
    requires ItemBase(items, base, x) <= i < ItemBase(items, base, x) + Count(items[x])
    ensures i < Size(g) && Roots(items, base)[x] < Size(g) && Under(g, i, Roots(items, base)[x])
  {
    var b, dep, req := ItemPlaced(g, inSequence, items, base, up, [], x);
    UnderRootOf(g, items[x], b, up, dep, req, i);
  }
}
