/** The numbering of a plan follows its order, and the order of its graph is the order of the plan. */
module PlanNumbers {
  import opened ActionGraph
  import opened ActionInvariant
  import opened ActionReading
  import opened ActionRuns
  import opened ActionProgress
  import opened ActionStuck
  import opened ActionTree
  import opened PlanOrder

  /** The numbers below an action come after its siblings to the left. */
  ghost predicate Compact(g: Graph)
    requires WellFormed(g)
  {
    forall w, z, y :: 0 <= w < z < Size(g) && g.up[w] == g.up[z] && 0 <= y < Size(g) && Under(g, y, z) ==> w < y
  }

  // ------------------------------------------------------------------------
  // The numbering of a plan is compact
  // ------------------------------------------------------------------------

  lemma {:induction false} RootsBefore<Op>(items: seq<Plan<Op>>, base: nat, b: nat, a: nat)
    requires b < a < |items|
    ensures Roots(items, base)[b] < ItemBase(items, base, a)
    decreases a
  {
    if b == 0 {
      ItemBaseAfter(items[1..], base + Count(items[0]), a - 1);
    } else {
      RootsBefore(items[1..], base + Count(items[0]), b - 1, a - 1);
    }
  }

  lemma {:induction false} ItemBaseAfter<Op>(items: seq<Plan<Op>>, base: nat, a: nat)
    requires a < |items|
    ensures base <= ItemBase(items, base, a)
    decreases a
  {
    if a > 0 {
      ItemBaseAfter(items[1..], base + Count(items[0]), a - 1);
    }
  }

  /** What lies below the root of a placed plan has one of its numbers. */
  lemma {:induction false} UnderRange<Op>(g: Graph, p: Plan<Op>, base: nat, up: Id, depends: seq<Id>, requiredBy: seq<Id>, y: Id)
    requires WellFormed(g) && Placed(g, p, base, up, depends, requiredBy) && y < Size(g) && Under(g, y, base + Count(p) - 1)
    ensures base <= y
    decreases p
  {
    var root := base + Count(p) - 1;
    if y != root {
      var n := PathKid(g, y, root);
      AroundIsGroup(g, y, root);
      var b, dep, req := ItemPlaced(g, p.inSequence, p.items, base, root, [], n);
      UnderRange(g, p.items[n], b, root, dep, req, y);
    }
  }

  lemma {:induction false} ItemsCompact<Op>(g: Graph, p: Plan<Op>, base: nat, up: Id, depends: seq<Id>, requiredBy: seq<Id>,
                                            m: nat, n: nat, y: Id)
    requires WellFormed(g) && Placed(g, p, base, up, depends, requiredBy) && p.Group? && m < n < |p.items|
    requires var ids := Roots(p.items, base);
             ids[n] < Size(g) && y < Size(g) && Under(g, y, ids[n])
    ensures Roots(p.items, base)[m] < y
  {
    hide WellFormed, PlacedAll;
    var root := base + Count(p) - 1;
    RootsBefore(p.items, base, m, n);
    var b, dep, req := ItemPlaced(g, p.inSequence, p.items, base, root, [], n);
    UnderRange(g, p.items[n], b, root, dep, req, y);
  }

  lemma {:induction false} PlacedCompact<Op>(g: Graph, p: Plan<Op>, base: nat, up: Id, depends: seq<Id>, requiredBy: seq<Id>,
                                             q: Id, w: Id, z: Id, y: Id)
    requires WellFormed(g) && Placed(g, p, base, up, depends, requiredBy) && q < Size(g) && Under(g, q, base + Count(p) - 1)
    requires w < z < Size(g) && g.up[w] == g.up[z] == q && y < Size(g) && Under(g, y, z)
    ensures w < y
    decreases p, 1
  {
    hide NodeOk, PlacedAll;
    var root := base + Count(p) - 1;
    HasKid(g, w);
    HasKid(g, z);
    if q == root {
      var m := KidAt(g, q, w);
      var n := KidAt(g, q, z);
      RootsAt(p.items, base);
      ItemsCompact(g, p, base, up, depends, requiredBy, m, n, y);
    } else {
      var n := PathKid(g, q, root);
      AroundIsGroup(g, q, root);
      ItemCompact(g, p, base, up, depends, requiredBy, n, q, w, z, y);
    }
  }

  lemma {:induction false} ItemCompact<Op>(g: Graph, p: Plan<Op>, base: nat, up: Id, depends: seq<Id>, requiredBy: seq<Id>, n: nat,
                                           q: Id, w: Id, z: Id, y: Id)
    requires WellFormed(g) && Placed(g, p, base, up, depends, requiredBy) && p.Group? && n < |p.items|
    requires q < Size(g) && Roots(p.items, base)[n] < Size(g) && Under(g, q, Roots(p.items, base)[n])
    requires w < z < Size(g) && g.up[w] == g.up[z] == q && y < Size(g) && Under(g, y, z)
    ensures w < y
    decreases p, 0
  {
    hide WellFormed, PlacedAll;
    var b, dep, req := ItemPlaced(g, p.inSequence, p.items, base, base + Count(p) - 1, [], n);
    PlacedCompact(g, p.items[n], b, base + Count(p) - 1, dep, req, q, w, z, y);
  }

  lemma {:induction false} HasKid(g: Graph, w: Id)
    requires WellFormed(g) && w < Size(g) && g.up[w] < Size(g)
    ensures w in g.nodes[g.up[w]].kids && g.nodes[g.up[w]].isGroup
  {
    assert NodeOk(g, w) && NodeOk(g, g.up[w]);
  }

  lemma {:induction false} PlanCompact<Op>(g: Graph, p: Plan<Op>)
    requires WellFormed(g) && Realizes(g, p)
    ensures Compact(g)
  {
    hide Placed;
    forall w, z, y | 0 <= w < z < Size(g) && g.up[w] == g.up[z] && 0 <= y < Size(g) && Under(g, y, z) ensures w < y {
      assert NodeOk(g, w) && NodeOk(g, z);
      AllUnderRoot(g, g.up[z]);
      PlacedCompact(g, p, 0, Count(p), [], [], g.up[z], w, z, y);
    }
  }

  // ------------------------------------------------------------------------
  // The order of the graph
  // ------------------------------------------------------------------------

  lemma {:induction false} LeadsUpwards(g: Graph, b: Id, a: Id)
    requires WellFormed(g) && Compact(g) && b < Size(g) && a < Size(g) && Leads(g, b, a)
    ensures b < a
  {
    var x, y :| 0 <= x < Size(g) && 0 <= y < Size(g) && Under(g, b, x) && Under(g, a, y) && Downstream(g, x, y);
    DownstreamShape(g, x, y);
    AroundIsNotBelow(g, b, x);
  }

  lemma {:induction false} PrecedesInside<Op>(inSequence: bool, items: seq<Plan<Op>>, base: nat, n: nat, b: Id, a: Id)
    requires n < |items| && ItemBase(items, base, n) <= b < ItemBase(items, base, n) + Count(items[n])
    requires ItemBase(items, base, n) <= a < ItemBase(items, base, n) + Count(items[n])
    ensures PrecedesIn(inSequence, items, base, b, a) == Precedes(items[n], ItemBase(items, base, n), b, a)
    decreases n
  {
    if n > 0 {
      ItemBaseAfter(items[1..], base + Count(items[0]), n - 1);
      PrecedesInside(inSequence, items[1..], base + Count(items[0]), n - 1, b, a);
    }
  }

  lemma {:induction false} PrecedesAcross<Op>(inSequence: bool, items: seq<Plan<Op>>, base: nat, m: nat, n: nat, b: Id, a: Id)
    requires m < n < |items| && ItemBase(items, base, m) <= b < ItemBase(items, base, m) + Count(items[m])
    requires ItemBase(items, base, n) <= a < ItemBase(items, base, n) + Count(items[n])
    ensures PrecedesIn(inSequence, items, base, b, a) == inSequence
    decreases m
  {
    var next := base + Count(items[0]);
    ItemBaseAfter(items[1..], next, n - 1);
    if m > 0 {
      ItemBaseAfter(items[1..], next, m - 1);
      PrecedesAcross(inSequence, items[1..], next, m - 1, n - 1, b, a);
    }
  }

  /** The numbers of an item. */
  lemma {:induction false} ItemRange<Op>(g: Graph, p: Plan<Op>, base: nat, up: Id, depends: seq<Id>, requiredBy: seq<Id>, n: nat, b: Id)
    requires WellFormed(g) && Placed(g, p, base, up, depends, requiredBy) && p.Group? && n < |p.items|
    requires Roots(p.items, base)[n] < Size(g) && b < Size(g) && Under(g, b, Roots(p.items, base)[n])
    ensures ItemBase(p.items, base, n) <= b < ItemBase(p.items, base, n) + Count(p.items[n])
  {
    hide WellFormed, PlacedAll;
    var i, dep, req := ItemPlaced(g, p.inSequence, p.items, base, base + Count(p) - 1, [], n);
    UnderRange(g, p.items[n], i, base + Count(p) - 1, dep, req, b);
    AroundIsNotBelow(g, b, Roots(p.items, base)[n]);
  }

  lemma {:induction false} OnlySequencesWait<Op>(g: Graph, p: Plan<Op>, base: nat, up: Id, depends: seq<Id>, requiredBy: seq<Id>, n: nat)
    requires WellFormed(g) && Placed(g, p, base, up, depends, requiredBy) && p.Group? && n < |p.items|
    requires Roots(p.items, base)[n] < Size(g) && g.nodes[Roots(p.items, base)[n]].depends != []
    ensures p.inSequence
  {
    hide WellFormed, PlacedAll;
    var i, dep, req := ItemPlaced(g, p.inSequence, p.items, base, base + Count(p) - 1, [], n);
  }

  lemma {:induction false} LinkPrecedes<Op>(g: Graph, p: Plan<Op>, base: nat, up: Id, depends: seq<Id>, requiredBy: seq<Id>,
                                            q: Id, x: Id, y: Id, b: Id, a: Id)
    requires WellFormed(g) && Placed(g, p, base, up, depends, requiredBy) && q < Size(g) && Under(g, q, base + Count(p) - 1)
    requires x < y < Size(g) && g.up[x] == g.up[y] == q && g.nodes[y].depends != []
    requires b < Size(g) && a < Size(g) && Under(g, b, x) && Under(g, a, y)
    ensures Precedes(p, base, b, a)
    decreases p
  {
    hide NodeOk, PlacedAll;
    var root := base + Count(p) - 1;
    HasKid(g, x);
    HasKid(g, y);
    if q == root {
      var m := KidAt(g, q, x);
      var n := KidAt(g, q, y);
      RootsAt(p.items, base);
      ItemRange(g, p, base, up, depends, requiredBy, m, b);
      ItemRange(g, p, base, up, depends, requiredBy, n, a);
      OnlySequencesWait(g, p, base, up, depends, requiredBy, n);
      PrecedesAcross(p.inSequence, p.items, base, m, n, b, a);
    } else {
      var n := PathKid(g, q, root);
      AroundIsGroup(g, q, root);
      InItem(g, p, base, up, depends, requiredBy, n, q, x, y, b, a);
    }
  }

  lemma {:induction false} InItem<Op>(g: Graph, p: Plan<Op>, base: nat, up: Id, depends: seq<Id>, requiredBy: seq<Id>, n: nat,
                                      q: Id, x: Id, y: Id, b: Id, a: Id)
    requires WellFormed(g) && Placed(g, p, base, up, depends, requiredBy) && p.Group? && n < |p.items|
    requires q < Size(g) && Roots(p.items, base)[n] < Size(g) && Under(g, q, Roots(p.items, base)[n])
    requires x < y < Size(g) && g.up[x] == g.up[y] == q && g.nodes[y].depends != []
    requires b < Size(g) && a < Size(g) && Under(g, b, x) && Under(g, a, y)
    ensures Precedes(p, base, b, a)
    decreases p, 0
  {
    hide WellFormed, PlacedAll;
    var i, dep, req := ItemPlaced(g, p.inSequence, p.items, base, base + Count(p) - 1, [], n);
    LinkPrecedes(g, p.items[n], i, base + Count(p) - 1, dep, req, q, x, y, b, a);
    BelowUp(g, b, x, Roots(p.items, base)[n]);
    BelowUp(g, a, y, Roots(p.items, base)[n]);
    ItemRange(g, p, base, up, depends, requiredBy, n, b);
    ItemRange(g, p, base, up, depends, requiredBy, n, a);
    PrecedesInside(p.inSequence, p.items, base, n, b, a);
  }

  lemma {:induction false} BelowUp(g: Graph, b: Id, x: Id, z: Id)
    requires WellFormed(g) && b < Size(g) && x < Size(g) && z < Size(g) && Under(g, b, x) && g.up[x] < Size(g) && Under(g, g.up[x], z)
    ensures Under(g, b, z)
  {
    UnderThen(g, b, x);
    UnderTransitive(g, b, g.up[x], z);
  }

  /** What the graph orders statically, the plan orders. */
  lemma {:induction false} LeadsPrecedes<Op>(g: Graph, p: Plan<Op>, b: Id, a: Id)
    requires WellFormed(g) && Realizes(g, p) && b < Size(g) && a < Size(g) && Leads(g, b, a)
    ensures Precedes(p, 0, b, a)
  {
    hide Placed, Precedes;
    var x, y :| 0 <= x < Size(g) && 0 <= y < Size(g) && Under(g, b, x) && Under(g, a, y) && Downstream(g, x, y);
    DownstreamShape(g, x, y);
    assert NodeOk(g, x) && NodeOk(g, y);
    AllUnderRoot(g, g.up[x]);
    LinkPrecedes(g, p, 0, Count(p), [], [], g.up[x], x, y, b, a);
  }

  /** For single actions without computed dependencies, the order of the graph is the order of the plan. */
  lemma {:induction false} BeforeIffPrecedes<Op>(g: Graph, p: Plan<Op>, b: Id, a: Id)
    requires WellFormed(g) && Realizes(g, p) && b < Size(g) && a < Size(g) && !g.nodes[a].isGroup
    ensures Before(g, b, a) <==> b in g.nodes[a].computed || (b < a && Precedes(p, 0, b, a))
  {
    hide Placed, Precedes;
    PlanCompact(g, p);
    if Leads(g, b, a) {
      LeadsUpwards(g, b, a);
      LeadsPrecedes(g, p, b, a);
    } else if b < a && Precedes(p, 0, b, a) {
      PrecedesLeads(g, p, 0, Count(p), [], [], b, a);
    }
  }

  /** The static order is transitive. */
  lemma {:induction false} LeadsThen(g: Graph, u: Id, b: Id, a: Id)
    requires WellFormed(g) && u < Size(g) && b < Size(g) && a < Size(g) && Leads(g, u, b) && Leads(g, b, a)
    ensures Leads(g, u, a)
  {
    hide Downstream, NodeOk;
    var v, w :| 0 <= v < Size(g) && 0 <= w < Size(g) && Under(g, u, v) && Under(g, b, w) && Downstream(g, v, w);
    var x, y :| 0 <= x < Size(g) && 0 <= y < Size(g) && Under(g, b, x) && Under(g, a, y) && Downstream(g, x, y);
    DownstreamShape(g, v, w);
    DownstreamShape(g, x, y);
    UnderLinear(g, b, w, x);
    if w == x {
      DownstreamThen(g, v, w, y);
    } else if Under(g, w, x) {
      AboveOf(g, w, x);
      BelowUp(g, u, v, x);
    } else {
      AboveOf(g, x, w);
      BelowUp(g, a, y, w);
    }
  }

  lemma {:induction false} DownstreamThen(g: Graph, v: Id, w: Id, y: Id)
    requires WellFormed(g) && v < Size(g) && w < Size(g) && y < Size(g) && Downstream(g, v, w) && Downstream(g, w, y)
    ensures Downstream(g, v, y)
    decreases y
  {
    assert NodeOk(g, y);
    var d :| d in g.nodes[y].depends && (d == w || Downstream(g, w, d));
    if d != w {
      DownstreamThen(g, v, w, d);
    }
  }

  lemma {:induction false} AboveOf(g: Graph, x: Id, w: Id)
    requires WellFormed(g) && x < Size(g) && w < Size(g) && x != w && Under(g, x, w)
    ensures g.up[x] < Size(g) && Under(g, g.up[x], w)
  {
    assert NodeOk(g, x);
  }
}
