/** What never comes after what in the sequences of a plan. */
module PlanSteps {
  import opened ActionGraph
  import opened ActionInvariant
  import opened ActionReading
  import opened ActionRuns
  import opened ActionProgress
  import opened ActionStuck
  import opened ActionTree
  import opened PlanOrder
  import opened PlanNumbers
  import opened PlanSchedule
  import opened Resources
  import opened Deployers
  import opened Convergence
  import opened UpdatePlans
  import opened LevelOrder

  /** Any item of a sequence, or only the groups, or only the single actions. */
  datatype Step = AnyStep | GroupStep | SingleStep

  predicate IsStep(k: Step, isGroup: bool) {
    match k
    case AnyStep => true
    case GroupStep => isGroup
    case SingleStep => !isGroup
  }

  /** Item `q`, if it is such a step, has no action of `y`, or the earlier item `p` none of `x`. */
  predicate Unmixed(k: Step, p: Plan<Op>, q: Plan<Op>, x: OpSet, y: OpSet) {
    IsStep(k, q.Group?) ==> NoneOf(Ops(p), x) || NoneOf(Ops(q), y)
  }

  /** In no sequence of the plan does such a step with an action of `y` come after an item with an action of `x`. */
  predicate NeverAfter(p: Plan<Op>, x: OpSet, y: OpSet, k: Step) {
    match p
    case Single(_) => true
    case Group(inSequence, items) =>
      && (forall m | 0 <= m < |items| :: NeverAfter(items[m], x, y, k))
      && (inSequence ==> forall m, n | 0 <= m < n < |items| :: Unmixed(k, items[m], items[n], x, y))
  }

  // ------------------------------------------------------------------------
  // What this means in the graph of the plan
  // ------------------------------------------------------------------------

  lemma {:induction false} OpInItem(items: seq<Plan<Op>>, base: nat, n: nat, i: Id)
    requires n < |items| && ItemBase(items, base, n) <= i < ItemBase(items, base, n) + Count(items[n])
    ensures OpIn(items, base, i) == OpAt(items[n], ItemBase(items, base, n), i)
    decreases n
  {
    if n > 0 {
      ItemBaseAfter(items[1..], base + Count(items[0]), n - 1);
      OpInItem(items[1..], base + Count(items[0]), n - 1, i);
    }
  }

  lemma {:induction false} ItemOp(g: Graph, p: Plan<Op>, base: nat, up: Id, depends: seq<Id>, requiredBy: seq<Id>, n: nat, i: Id, x: OpSet)
    requires WellFormed(g) && Placed(g, p, base, up, depends, requiredBy) && p.Group? && n < |p.items|
    requires Roots(p.items, base)[n] < Size(g) && i < Size(g) && Under(g, i, Roots(p.items, base)[n])
    ensures OpAt(p, base, i) == OpAt(p.items[n], ItemBase(p.items, base, n), i)
    ensures InSet(OpAt(p, base, i), x) ==> !NoneOf(Ops(p.items[n]), x)
  {
    hide WellFormed, Placed, NoneOf;
    ItemRange(g, p, base, up, depends, requiredBy, n, i);
    OpInItem(p.items, base, n, i);
    if InSet(OpAt(p, base, i), x) {
      OpAtAmong(p.items[n], ItemBase(p.items, base, n), i);
      SomeOf(Ops(p.items[n]), OpAt(p, base, i).value, x);
    }
  }

  lemma {:induction false} IsItemGroup(g: Graph, p: Plan<Op>, base: nat, up: Id, depends: seq<Id>, requiredBy: seq<Id>, n: nat)
    requires WellFormed(g) && Placed(g, p, base, up, depends, requiredBy) && p.Group? && n < |p.items|
    ensures Roots(p.items, base)[n] < Size(g) && g.nodes[Roots(p.items, base)[n]].isGroup == p.items[n].Group?
  {
    hide WellFormed, PlacedAll;
    var i, dep, req := ItemPlaced(g, p.inSequence, p.items, base, base + Count(p) - 1, [], n);
  }

  /** Where `d` is followed by `z` in a sequence, `z` is no such step, or one of the actions is missing. */
  lemma {:induction false} NeverLinked(g: Graph, p: Plan<Op>, base: nat, up: Id, depends: seq<Id>, requiredBy: seq<Id>,
                                       q: Id, d: Id, z: Id, i: Id, j: Id, x: OpSet, y: OpSet, k: Step)
    requires WellFormed(g) && Placed(g, p, base, up, depends, requiredBy) && q < Size(g) && Under(g, q, base + Count(p) - 1)
    requires d < z < Size(g) && g.up[d] == g.up[z] == q && g.nodes[z].depends != []
    requires i < Size(g) && j < Size(g) && Under(g, i, d) && Under(g, j, z)
    requires NeverAfter(p, x, y, k) && InSet(OpAt(p, base, i), x) && InSet(OpAt(p, base, j), y)
    ensures !IsStep(k, g.nodes[z].isGroup)
    decreases p, 1
  {
    hide NodeOk, PlacedAll, NoneOf, InSet;
    var root := base + Count(p) - 1;
    HasKid(g, d);
    HasKid(g, z);
    if q == root {
      var m := KidAt(g, q, d);
      var n := KidAt(g, q, z);
      RootsAt(p.items, base);
      ItemOp(g, p, base, up, depends, requiredBy, m, i, x);
      ItemOp(g, p, base, up, depends, requiredBy, n, j, y);
      IsItemGroup(g, p, base, up, depends, requiredBy, n);
      OnlySequencesWait(g, p, base, up, depends, requiredBy, n);
      assert Unmixed(k, p.items[m], p.items[n], x, y);
    } else {
      var n := PathKid(g, q, root);
      AroundIsGroup(g, q, root);
      NeverLinkedIn(g, p, base, up, depends, requiredBy, n, q, d, z, i, j, x, y, k);
    }
  }

  lemma {:induction false} NeverLinkedIn(g: Graph, p: Plan<Op>, base: nat, up: Id, depends: seq<Id>, requiredBy: seq<Id>, n: nat,
                                         q: Id, d: Id, z: Id, i: Id, j: Id, x: OpSet, y: OpSet, k: Step)
    requires WellFormed(g) && Placed(g, p, base, up, depends, requiredBy) && p.Group? && n < |p.items|
    requires q < Size(g) && Roots(p.items, base)[n] < Size(g) && Under(g, q, Roots(p.items, base)[n])
    requires d < z < Size(g) && g.up[d] == g.up[z] == q && g.nodes[z].depends != []
    requires i < Size(g) && j < Size(g) && Under(g, i, d) && Under(g, j, z)
    requires NeverAfter(p, x, y, k) && InSet(OpAt(p, base, i), x) && InSet(OpAt(p, base, j), y)
    ensures !IsStep(k, g.nodes[z].isGroup)
    decreases p, 0
  {
    hide WellFormed, PlacedAll, NoneOf, InSet;
    var b, dep, req := ItemPlaced(g, p.inSequence, p.items, base, base + Count(p) - 1, [], n);
    BelowUp(g, i, d, Roots(p.items, base)[n]);
    BelowUp(g, j, z, Roots(p.items, base)[n]);
    ItemOp(g, p, base, up, depends, requiredBy, n, i, x);
    ItemOp(g, p, base, up, depends, requiredBy, n, j, y);
    NeverLinked(g, p.items[n], b, base + Count(p) - 1, dep, req, q, d, z, i, j, x, y, k);
  }

  /** An action of `y` never comes after one of `x`. */
  lemma {:induction false} NeverLeads(g: Graph, p: Plan<Op>, i: Id, j: Id, x: OpSet, y: OpSet)
    requires WellFormed(g) && Realizes(g, p) && i < Size(g) && j < Size(g)
    requires NeverAfter(p, x, y, AnyStep) && InSet(OpAt(p, 0, i), x) && InSet(OpAt(p, 0, j), y)
    ensures !Leads(g, i, j)
  {
    hide Placed, NeverAfter, InSet;
    if Leads(g, i, j) {
      var d, z :| 0 <= d < Size(g) && 0 <= z < Size(g) && Under(g, i, d) && Under(g, j, z) && Downstream(g, d, z);
      LinkShape(g, d, z);
      NeverLinked(g, p, 0, Count(p), [], [], g.up[d], d, z, i, j, x, y, AnyStep);
    }
  }

  lemma {:induction false} LinkShape(g: Graph, d: Id, z: Id)
    requires WellFormed(g) && d < Size(g) && z < Size(g) && Downstream(g, d, z)
    ensures d < z && g.up[d] == g.up[z] < Size(g) && g.nodes[z].depends != [] && Under(g, g.up[d], Root(g))
  {
    DownstreamShape(g, d, z);
    assert NodeOk(g, d) && NodeOk(g, z);
    AllUnderRoot(g, g.up[d]);
  }

  // ------------------------------------------------------------------------
  // Composing such plans
  // ------------------------------------------------------------------------

  predicate ActNever(a: Action, x: OpSet, y: OpSet, k: Step) {
    a.Some? ==> NeverAfter(a.value, x, y, k)
  }

  lemma {:induction false} QuietNever(p: Plan<Op>, x: OpSet, y: OpSet, k: Step)
    requires NoneOf(Ops(p), x) || NoneOf(Ops(p), y)
    ensures NeverAfter(p, x, y, k)
    decreases p
  {
    if p.Group? {
      forall n | 0 <= n < |p.items|
        ensures NeverAfter(p.items[n], x, y, k)
        ensures NoneOf(Ops(p), x) ==> NoneOf(Ops(p.items[n]), x)
        ensures NoneOf(Ops(p), y) ==> NoneOf(Ops(p.items[n]), y)
      {
        if NoneOf(Ops(p), x) {
          NoneOfItem(p.items, n, x);
        }
        if NoneOf(Ops(p), y) {
          NoneOfItem(p.items, n, y);
        }
        QuietNever(p.items[n], x, y, k);
      }
    }
  }

  lemma {:induction false} QuietActNever(a: Action, x: OpSet, y: OpSet, k: Step)
    requires NoneOf(OpsOf(a), x) || NoneOf(OpsOf(a), y)
    ensures ActNever(a, x, y, k)
  {
    if a.Some? {
      QuietNever(a.value, x, y, k);
    }
  }

  lemma {:induction false} GroupNever(acts: seq<Action>, x: OpSet, y: OpSet, k: Step)
    requires forall n :: 0 <= n < |acts| ==> ActNever(acts[n], x, y, k)
    ensures NeverAfter(ActionGroup(acts), x, y, k)
  {
    hide NeverAfter;
    var items := NonNull(acts);
    forall n | 0 <= n < |items| ensures NeverAfter(items[n], x, y, k) {
      var i := NonNullFrom(acts, n);
      assert ActNever(acts[i], x, y, k);
    }
    GroupOfNever(items, x, y, k);
  }

  lemma {:induction false} GroupOfNever(items: seq<Plan<Op>>, x: OpSet, y: OpSet, k: Step)
    requires forall n :: 0 <= n < |items| ==> NeverAfter(items[n], x, y, k)
    ensures NeverAfter(Group(false, items), x, y, k)
  {
  }

  lemma {:induction false} PairNever(a: Action, b: Action, x: OpSet, y: OpSet, k: Step)
    requires ActNever(a, x, y, k) && ActNever(b, x, y, k)
    requires a.Some? && b.Some? ==> Unmixed(k, a.value, b.value, x, y)
    ensures NeverAfter(ActionSequence([a, b]), x, y, k) && NeverAfter(ActionSequence([None, a, b]), x, y, k)
  {
    hide NonNull, ActionSequence, NoneOf;
    PairItems(a, b);
  }

  lemma {:induction false} CompositeNever(children: seq<Action>, after: Action, x: OpSet, y: OpSet, k: Step)
    requires (forall n :: 0 <= n < |children| ==> ActNever(children[n], x, y, k)) && ActNever(after, x, y, k)
    requires after.Some? ==> !IsStep(k, after.value.Group?) || NoneOf(OpsOf(after), y)
    ensures ActNever(GenerateComposite(children, None, after), x, y, k)
  {
    hide NeverAfter, NoneOf, ActionSequence, ActionGroup;
    var middle := MiddleOf(children);
    GroupNever(children, x, y, k);
    PairNever(middle, after, x, y, k);
  }

  lemma {:induction false} OneOrGroupNever(plans: seq<Plan<Op>>, x: OpSet, y: OpSet, k: Step)
    requires plans != [] && forall n :: 0 <= n < |plans| ==> NeverAfter(plans[n], x, y, k)
    ensures ActNever(OneOrGroup(plans), x, y, k)
    ensures forall n :: 0 <= n < |plans| ==> ActNever(Wrap(plans)[n], x, y, k)
  {
    hide NeverAfter;
    WrapAt(plans);
    GroupNever(Wrap(plans), x, y, k);
  }

  /** On a level whose deletions hold no action of `x`. */
  lemma {:induction false} LevelNever(updates: seq<Plan<Op>>, creates: seq<Plan<Op>>, deletes: seq<Plan<Op>>, x: OpSet, y: OpSet, k: Step)
    requires forall n :: 0 <= n < |updates| ==> NeverAfter(updates[n], x, y, k)
    requires forall n :: 0 <= n < |creates| ==> NeverAfter(creates[n], x, y, k)
    requires forall n :: 0 <= n < |deletes| ==> NoneOf(Ops(deletes[n]), x)
    ensures forall n :: 0 <= n < |LevelActions(updates, creates, deletes)| ==>
      ActNever(LevelActions(updates, creates, deletes)[n], x, y, k)
  {
    hide NeverAfter, NoneOf;
    forall n | 0 <= n < |deletes| ensures NeverAfter(deletes[n], x, y, k) {
      QuietNever(deletes[n], x, y, k);
    }
    if Nested(updates, creates, deletes) {
      OneOrGroupNever(deletes, x, y, k);
      OneOrGroupNever(creates + updates, x, y, k);
      OpsOfOneOrGroup(deletes);
      NoneOfItems(deletes, x);
      PairNever(OneOrGroup(deletes), OneOrGroup(creates + updates), x, y, k);
    } else if updates + creates + deletes != [] {
      OneOrGroupNever(updates + creates + deletes, x, y, k);
    }
  }
}
