/**
  Every interleaving that the engine allows for a plan has the effect of running
  the plan's actions one after the other, from left to right.
*/
module PlanSchedule {
  import opened ActionGraph
  import opened ActionInvariant
  import opened ActionRuns
  import opened ActionHistory
  import opened ActionTree
  import opened PlanOrder
  import opened Resources

  /** The actions of a plan, from left to right. */
  function Ops(p: Plan<Op>): seq<Op>
    decreases p, 0, 0
  {
    match p
    case Single(op) => [op]
    case Group(_, items) => OpsAll(items)
  }

  function OpsAll(items: seq<Plan<Op>>): seq<Op>
    decreases items, 1, |items|
  {
    if items == [] then [] else Ops(items[0]) + OpsAll(items[1..])
  }

  predicate PlanTouches(p: Plan<Op>, r: Resource) {
    match p
    case Single(op) => Touches(op, r)
    case Group(_, items) => exists a | 0 <= a < |items| :: PlanTouches(items[a], r)
  }

  /** Actions that no sequence orders touch different resources, rules for single nodes apart. */
  ghost predicate ConflictFree(p: Plan<Op>) {
    match p
    case Single(_) => true
    case Group(inSequence, items) =>
      && (forall a | 0 <= a < |items| :: ConflictFree(items[a]))
      && (!inSequence ==> forall a, b, r: PlainResource | 0 <= a < b < |items| ::
            !(PlanTouches(items[a], r) && PlanTouches(items[b], r)))
  }

  // ------------------------------------------------------------------------
  // Numbers and actions
  // ------------------------------------------------------------------------

  /** The action with number `i`, if it is a single one. */
  function OpAt(p: Plan<Op>, base: nat, i: Id): Option<Op>
    decreases p, 0, 0
  {
    match p
    case Single(op) => if i == base then Some(op) else None
    case Group(_, items) => OpIn(items, base, i)
  }

  function OpIn(items: seq<Plan<Op>>, base: nat, i: Id): Option<Op>
    decreases items, 1, |items|
  {
    if items == [] then None
    else if i < base + Count(items[0]) then OpAt(items[0], base, i)
    else OpIn(items[1..], base + Count(items[0]), i)
  }

  /** The numbers of the single actions, from left to right. */
  function Leaves(p: Plan<Op>, base: nat): seq<Id>
    decreases p, 0, 0
  {
    match p
    case Single(_) => [base]
    case Group(_, items) => LeavesAll(items, base)
  }

  function LeavesAll(items: seq<Plan<Op>>, base: nat): seq<Id>
    decreases items, 1, |items|
  {
    if items == [] then [] else Leaves(items[0], base) + LeavesAll(items[1..], base + Count(items[0]))
  }

  predicate Ascending(ids: seq<Id>) {
    forall m, n | 0 <= m < n < |ids| :: ids[m] < ids[n]
  }

  lemma {:induction false} LeavesShape(p: Plan<Op>, base: nat)
    ensures Ascending(Leaves(p, base))
    ensures forall n :: 0 <= n < |Leaves(p, base)| ==> base <= Leaves(p, base)[n] < base + Count(p)
    decreases p, 0, 0
  {
    if p.Group? {
      LeavesAllShape(p.items, base);
    }
  }

  lemma {:induction false} LeavesAllShape(items: seq<Plan<Op>>, base: nat)
    ensures Ascending(LeavesAll(items, base))
    ensures forall n :: 0 <= n < |LeavesAll(items, base)| ==>
      base <= LeavesAll(items, base)[n] < base + CountAll(items)
    decreases items, 1, |items|
  {
    if items != [] {
      LeavesShape(items[0], base);
      LeavesAllShape(items[1..], base + Count(items[0]));
    }
  }

  /** The actions at some numbers. */
  function OpsAt(p: Plan<Op>, base: nat, ids: seq<Id>): seq<Op> {
    if ids == [] then []
    else (match OpAt(p, base, ids[0]) case Some(op) => [op] case None => []) + OpsAt(p, base, ids[1..])
  }

  function OpsInAt(items: seq<Plan<Op>>, base: nat, ids: seq<Id>): seq<Op> {
    if ids == [] then []
    else (match OpIn(items, base, ids[0]) case Some(op) => [op] case None => []) + OpsInAt(items, base, ids[1..])
  }

  lemma {:induction false} OpsInAtJoin(items: seq<Plan<Op>>, base: nat, a: seq<Id>, b: seq<Id>)
    ensures OpsInAt(items, base, a + b) == OpsInAt(items, base, a) + OpsInAt(items, base, b)
    decreases |a|
  {
    if a == [] {
      assert a + b == b;
    } else {
      assert (a + b)[1..] == a[1..] + b;
      OpsInAtJoin(items, base, a[1..], b);
    }
  }

  /** The numbers of a group answer through its items. */
  lemma {:induction false} OpsOfItems(items: seq<Plan<Op>>, base: nat, ids: seq<Id>)
    requires items != []
    requires forall n :: 0 <= n < |ids| ==> ids[n] < base + Count(items[0])
    ensures OpsInAt(items, base, ids) == OpsAt(items[0], base, ids)
    decreases |ids|
  {
    if ids != [] {
      OpsOfItems(items, base, ids[1..]);
    }
  }

  lemma {:induction false} OpsOfRest(items: seq<Plan<Op>>, base: nat, ids: seq<Id>)
    requires items != []
    requires forall n :: 0 <= n < |ids| ==> ids[n] >= base + Count(items[0])
    ensures OpsInAt(items, base, ids) == OpsInAt(items[1..], base + Count(items[0]), ids)
    decreases |ids|
  {
    if ids != [] {
      OpsOfRest(items, base, ids[1..]);
    }
  }

  lemma {:induction false} OpsOfGroup(p: Plan<Op>, base: nat, ids: seq<Id>)
    requires p.Group?
    ensures OpsAt(p, base, ids) == OpsInAt(p.items, base, ids)
    decreases |ids|
  {
    if ids != [] {
      OpsOfGroup(p, base, ids[1..]);
    }
  }

  /** The actions at the numbers from left to right are the actions from left to right. */
  lemma {:induction false} OpsAtLeaves(p: Plan<Op>, base: nat)
    ensures OpsAt(p, base, Leaves(p, base)) == Ops(p)
    decreases p, 0, 0
  {
    if p.Group? {
      OpsOfGroup(p, base, Leaves(p, base));
      OpsAtLeavesAll(p.items, base);
    }
  }

  lemma {:induction false} SplitOps(items: seq<Plan<Op>>, base: nat, a: seq<Id>, b: seq<Id>)
    requires items != []
    requires forall n :: 0 <= n < |a| ==> a[n] < base + Count(items[0])
    requires forall n :: 0 <= n < |b| ==> b[n] >= base + Count(items[0])
    ensures OpsInAt(items, base, a + b) == OpsAt(items[0], base, a) + OpsInAt(items[1..], base + Count(items[0]), b)
  {
    OpsInAtJoin(items, base, a, b);
    OpsOfItems(items, base, a);
    OpsOfRest(items, base, b);
  }

  lemma {:induction false} OpsAtLeavesAll(items: seq<Plan<Op>>, base: nat)
    ensures OpsInAt(items, base, LeavesAll(items, base)) == OpsAll(items)
    decreases items, 1, |items|
  {
    if items != [] {
      var next := base + Count(items[0]);
      LeavesShape(items[0], base);
      LeavesAllShape(items[1..], next);
      SplitOps(items, base, Leaves(items[0], base), LeavesAll(items[1..], next));
      OpsAtLeaves(items[0], base);
      OpsAtLeavesAll(items[1..], next);
    }
  }

  // ------------------------------------------------------------------------
  // One resource at a time
  // ------------------------------------------------------------------------

  predicate TouchesAt(p: Plan<Op>, i: Id, r: Resource) {
    var op := OpAt(p, 0, i);
    op.Some? && Touches(op.value, r)
  }

  /** The numbers whose action touches the resource. */
  function Touching(p: Plan<Op>, ids: seq<Id>, r: Resource): seq<Id> {
    if ids == [] then []
    else (if TouchesAt(p, ids[0], r) then [ids[0]] else []) + Touching(p, ids[1..], r)
  }

  lemma {:induction false} TrailTouching(p: Plan<Op>, ids: seq<Id>, r: Resource, v: Option<Value>)
    ensures Trail(OpsAt(p, 0, ids), r, v) == Trail(OpsAt(p, 0, Touching(p, ids, r)), r, v)
    decreases |ids|
  {
    if ids != [] {
      var op := OpAt(p, 0, ids[0]);
      var v' := if op.Some? then Effect(op.value, r, v) else v;
      TrailTouching(p, ids[1..], r, v');
      assert Trail(OpsAt(p, 0, ids), r, v) == Trail(OpsAt(p, 0, ids[1..]), r, v') by {
        if op.Some? {
          assert OpsAt(p, 0, ids) == [op.value] + OpsAt(p, 0, ids[1..]);
        } else {
          assert OpsAt(p, 0, ids) == OpsAt(p, 0, ids[1..]);
        }
      }
      var rest := Touching(p, ids[1..], r);
      if TouchesAt(p, ids[0], r) {
        assert Touching(p, ids, r) == [ids[0]] + rest;
        assert OpsAt(p, 0, [ids[0]] + rest) == [op.value] + OpsAt(p, 0, rest);
      } else {
        assert Touching(p, ids, r) == rest;
      }
    }
  }

  lemma {:induction false} TouchingShape(p: Plan<Op>, ids: seq<Id>, r: Resource)
    requires forall m, n :: 0 <= m < n < |ids| && TouchesAt(p, ids[m], r) && TouchesAt(p, ids[n], r) ==> ids[m] < ids[n]
    ensures Ascending(Touching(p, ids, r))
    ensures forall i :: i in Touching(p, ids, r) <==> i in ids && TouchesAt(p, i, r)
    decreases |ids|
  {
    if ids != [] {
      var rest := ids[1..];
      assert forall n :: 0 <= n < |rest| ==> rest[n] == ids[n + 1];
      TouchingShape(p, rest, r);
      assert ids == [ids[0]] + rest;
      var t := Touching(p, rest, r);
      if TouchesAt(p, ids[0], r) {
        forall n | 0 <= n < |t| ensures ids[0] < t[n] {
          assert t[n] in t;
          var m :| 0 <= m < |rest| && rest[m] == t[n];
        }
      }
    }
  }

  lemma {:induction false} FirstIn(b: seq<Id>)
    requires b != []
    ensures exists i :: i in b
  {
    assert b[0] in b;
  }

  /** Two ascending sequences of the same numbers are the same. */
  lemma {:induction false} AscendingUnique(a: seq<Id>, b: seq<Id>)
    requires Ascending(a) && Ascending(b) && forall i :: i in a <==> i in b
    ensures a == b
    decreases |a|
  {
    if a == [] {
      if b != [] {
        FirstIn(b);
      }
    } else {
      assert a[0] in a && b[0] in b;
      var m :| 0 <= m < |a| && a[m] == b[0];
      var n :| 0 <= n < |b| && b[n] == a[0];
      assert a[0] == b[0];
      AscendingRest(a, b);
      AscendingRest(b, a);
      AscendingUnique(a[1..], b[1..]);
      assert a == [a[0]] + a[1..] && b == [b[0]] + b[1..];
    }
  }

  lemma {:induction false} AscendingRest(a: seq<Id>, b: seq<Id>)
    requires a != [] && b != [] && Ascending(a) && Ascending(b) && a[0] == b[0] && forall i :: i in a ==> i in b
    ensures forall i :: i in a[1..] ==> i in b[1..]
  {
    forall i | i in a[1..] ensures i in b[1..] {
      var m :| 0 <= m < |a[1..]| && a[1..][m] == i;
      assert a[m + 1] == i && i in a;
      var n :| 0 <= n < |b| && b[n] == i;
      assert n > 0 && b[1..][n - 1] == i;
    }
  }

  /** In a conflict-free plan two actions that touch one resource are ordered from left to right. */
  lemma {:induction false} TouchersOrdered(p: Plan<Op>, base: nat, b: Id, a: Id, r: PlainResource)
    requires ConflictFree(p) && b < a
    requires OpAt(p, base, b).Some? && Touches(OpAt(p, base, b).value, r)
    requires OpAt(p, base, a).Some? && Touches(OpAt(p, base, a).value, r)
    ensures Precedes(p, base, b, a)
    decreases p, 0, 0
  {
    if p.Group? {
      TouchersOrderedIn(p.inSequence, p.items, base, b, a, r);
    }
  }

  lemma {:induction false} TouchersOrderedIn(inSequence: bool, items: seq<Plan<Op>>, base: nat, b: Id, a: Id, r: PlainResource)
    requires ConflictFree(Group(inSequence, items)) && b < a
    requires OpIn(items, base, b).Some? && Touches(OpIn(items, base, b).value, r)
    requires OpIn(items, base, a).Some? && Touches(OpIn(items, base, a).value, r)
    ensures PrecedesIn(inSequence, items, base, b, a)
    decreases items, 1, |items|
  {
    var next := base + Count(items[0]);
    if a < next {
      TouchersOrdered(items[0], base, b, a, r);
    } else if b < next {
      OpTouches(items[0], base, b, r);
      var y := OpInTouches(items[1..], next, a, r);
      assert PlanTouches(items[0], r) && PlanTouches(items[y + 1], r);
    } else {
      var rest := items[1..];
      assert ConflictFree(Group(inSequence, rest)) by {
        assert forall n :: 0 <= n < |rest| ==> rest[n] == items[n + 1];
      }
      TouchersOrderedIn(inSequence, rest, next, b, a, r);
    }
  }

  lemma {:induction false} OpTouches(p: Plan<Op>, base: nat, i: Id, r: Resource)
    requires OpAt(p, base, i).Some? && Touches(OpAt(p, base, i).value, r)
    ensures PlanTouches(p, r)
    decreases p, 0, 0
  {
    if p.Group? {
      var y := OpInTouches(p.items, base, i, r);
    }
  }

  lemma {:induction false} OpInTouches(items: seq<Plan<Op>>, base: nat, i: Id, r: Resource) returns (y: nat)
    requires OpIn(items, base, i).Some? && Touches(OpIn(items, base, i).value, r)
    ensures y < |items| && PlanTouches(items[y], r)
    decreases items, 1, |items|
  {
    if i < base + Count(items[0]) {
      OpTouches(items[0], base, i, r);
      y := 0;
    } else {
      y := OpInTouches(items[1..], base + Count(items[0]), i, r);
      y := y + 1;
    }
  }

  // ------------------------------------------------------------------------
  // What a run performed
  // ------------------------------------------------------------------------

  /** The actions that ended well, in the order in which they ended. */
  function EndedWell(log: seq<Event>): seq<Id> {
    if log == [] then []
    else (if log[0].Ended? && log[0].ok then [log[0].id] else []) + EndedWell(log[1..])
  }

  lemma {:induction false} EndedWellAt(log: seq<Event>, m: nat) returns (i: nat)
    requires m < |EndedWell(log)|
    ensures i < |log| && log[i] == Ended(EndedWell(log)[m], true)
    decreases |log|
  {
    if log[0].Ended? && log[0].ok {
      if m == 0 {
        i := 0;
      } else {
        i := EndedWellAt(log[1..], m - 1);
        i := i + 1;
      }
    } else {
      i := EndedWellAt(log[1..], m);
      i := i + 1;
    }
  }

  lemma {:induction false} EndedWellPair(log: seq<Event>, m: nat, n: nat) returns (i: nat, j: nat)
    requires m < n < |EndedWell(log)|
    ensures i < j < |log| && log[i] == Ended(EndedWell(log)[m], true) && log[j] == Ended(EndedWell(log)[n], true)
    decreases |log|
  {
    if log[0].Ended? && log[0].ok {
      if m == 0 {
        i := 0;
        j := EndedWellAt(log[1..], n - 1);
        j := j + 1;
      } else {
        i, j := EndedWellPair(log[1..], m - 1, n - 1);
        i, j := i + 1, j + 1;
      }
    } else {
      i, j := EndedWellPair(log[1..], m, n);
      i, j := i + 1, j + 1;
    }
  }

  lemma {:induction false} EndedWellHas(log: seq<Event>, a: Id)
    requires Ended(a, true) in log
    ensures a in EndedWell(log)
    decreases |log|
  {
    if log[0] != Ended(a, true) {
      EndedWellHas(log[1..], a);
    }
  }

  lemma {:induction false} OpAtSingle(g: Graph, p: Plan<Op>, base: nat, up: Id, depends: seq<Id>, requiredBy: seq<Id>, i: Id)
    requires Placed(g, p, base, up, depends, requiredBy) && OpAt(p, base, i).Some?
    ensures base <= i < base + Count(p) && i < Size(g) && !g.nodes[i].isGroup
    ensures i in Leaves(p, base)
    decreases p, 0, 0
  {
    if p.Group? {
      OpInSingle(g, p.inSequence, p.items, base, base + Count(p) - 1, [], i);
    }
  }

  lemma {:induction false} OpInSingle(g: Graph, inSequence: bool, items: seq<Plan<Op>>, base: nat, up: Id, depends: seq<Id>, i: Id)
    requires PlacedAll(g, inSequence, items, base, up, depends) && OpIn(items, base, i).Some?
    ensures base <= i < base + CountAll(items) && i < Size(g) && !g.nodes[i].isGroup
    ensures i in LeavesAll(items, base)
    decreases items, 1, |items|
  {
    var root := base + Count(items[0]) - 1;
    if i <= root {
      OpAtSingle(g, items[0], base, up, depends, After(inSequence, items, root), i);
    } else {
      OpInSingle(g, inSequence, items[1..], root + 1, up, Link(inSequence, root), i);
    }
  }

  /** A run of the graph of a plan that ended with the whole plan SUCCESSFUL. */
  ghost predicate Completed(g: Graph, p: Plan<Op>, run: seq<System>) {
    && Realizes(g, p) && TamePlan(p) && ConflictFree(p)
    && WellFormed(g) && Tame(g) && IsRun(g, run)
    && run[|run| - 1].st[Root(g)] == Successful
  }

  ghost function Log(run: seq<System>): seq<Event>
    requires run != []
  {
    run[|run| - 1].log
  }

  /** Every single action of a completed run was started once and ended well once. */
  lemma {:induction false} CompletedOnce(g: Graph, p: Plan<Op>, run: seq<System>, a: Id)
    requires Completed(g, p, run) && a < Size(g) && !g.nodes[a].isGroup
    ensures About(Log(run), a) == [Started(a), Ended(a, true)]
    ensures a in EndedWell(Log(run))
  {
    RunOutcome(g, run, |run| - 1);
    RunsOnce(g, run, |run| - 1, a);
    AboutIn(Log(run), a, Ended(a, true));
    EndedWellHas(Log(run), a);
  }

  /** Of two actions that touch one resource, the left one ended first. */
  lemma {:induction false} TouchersEndInOrder(g: Graph, p: Plan<Op>, run: seq<System>, r: PlainResource, m: nat, n: nat)
    requires Completed(g, p, run) && m < n < |EndedWell(Log(run))|
    requires TouchesAt(p, EndedWell(Log(run))[m], r) && TouchesAt(p, EndedWell(Log(run))[n], r)
    ensures EndedWell(Log(run))[m] < EndedWell(Log(run))[n]
  {
    var log := Log(run);
    var x, y := EndedWell(log)[m], EndedWell(log)[n];
    var i, j := EndedWellPair(log, m, n);
    OpAtSingle(g, p, 0, Count(p), [], [], x);
    OpAtSingle(g, p, 0, Count(p), [], [], y);
    CompletedOnce(g, p, run, x);
    CompletedOnce(g, p, run, y);
    EndOnce(log, j, y);
    assert log[i] in log[..j];
    assert forall e :: e in log[..i] ==> e in log[..j];
    if y < x {
      TouchersOrdered(p, 0, y, x, r);
      PrecedesLeads(g, p, 0, Count(p), [], [], y, x);
      EndOnce(log, i, x);
      StartedAfter(g, run, x, y, i);
      assert false;
    }
  }

  lemma {:induction false} StartedAfter(g: Graph, run: seq<System>, x: Id, y: Id, i: nat)
    requires WellFormed(g) && Tame(g) && IsRun(g, run) && i <= |Log(run)| && x < Size(g) && y < Size(g)
    requires Started(x) in Log(run)[..i] && !g.nodes[y].isGroup && Before(g, y, x)
    ensures Ended(y, true) in Log(run)[..i]
  {
    var log := Log(run);
    RunsExtendTheOrder(g, run, |run| - 1);
    var k :| 0 <= k < i && log[k] == Started(x);
    assert StartInOrder(g, log, k);
    assert log[..k] <= log[..i];
  }

  /**
    Whatever the order in which the actions of a completed run ended, the world is
    left as if they had been performed one after the other from left to right.
  */
  lemma {:induction false} InterleavingsAgree(g: Graph, p: Plan<Op>, run: seq<System>, w: World, r: PlainResource)
    requires Completed(g, p, run)
    ensures Get(Perform(OpsAt(p, 0, EndedWell(Log(run))), w), r) == Get(Perform(Ops(p), w), r)
  {
    var ids, leaves := EndedWell(Log(run)), Leaves(p, 0);
    forall m, n | 0 <= m < n < |ids| && TouchesAt(p, ids[m], r) && TouchesAt(p, ids[n], r)
      ensures ids[m] < ids[n]
    {
      TouchersEndInOrder(g, p, run, r, m, n);
    }
    LeavesShape(p, 0);
    TouchingShape(p, ids, r);
    TouchingShape(p, leaves, r);
    forall i | TouchesAt(p, i, r) ensures i in ids && i in leaves {
      OpAtSingle(g, p, 0, Count(p), [], [], i);
      CompletedOnce(g, p, run, i);
    }
    AscendingUnique(Touching(p, ids, r), Touching(p, leaves, r));
    TrailTouching(p, ids, r, Get(w, r));
    TrailTouching(p, leaves, r, Get(w, r));
    OpsAtLeaves(p, 0);
    PerformTrail(OpsAt(p, 0, ids), w, r);
    PerformTrail(Ops(p), w, r);
  }

  // ------------------------------------------------------------------------
  // Each action once
  // ------------------------------------------------------------------------

  predicate NoRepeats(ids: seq<Id>) {
    forall m, n | 0 <= m < n < |ids| :: ids[m] != ids[n]
  }

  function OpHere(p: Plan<Op>, i: Id): seq<Op> {
    var op := OpAt(p, 0, i);
    if op.Some? then [op.value] else []
  }

  lemma {:induction false} OpsAtJoin(p: Plan<Op>, a: seq<Id>, b: seq<Id>)
    ensures OpsAt(p, 0, a + b) == OpsAt(p, 0, a) + OpsAt(p, 0, b)
    decreases |a|
  {
    hide OpsAt, OpHere;
    if a == [] {
      OpsAtNone(p);
      assert a + b == b && [] + OpsAt(p, 0, b) == OpsAt(p, 0, b);
    } else {
      assert (a + b)[0] == a[0] && (a + b)[1..] == a[1..] + b;
      OpsAtJoin(p, a[1..], b);
      OpsAtFirst(p, a);
      OpsAtFirst(p, a + b);
      assert OpHere(p, a[0]) + (OpsAt(p, 0, a[1..]) + OpsAt(p, 0, b)) == OpHere(p, a[0]) + OpsAt(p, 0, a[1..]) + OpsAt(p, 0, b);
    }
  }

  lemma {:induction false} OpsAtNone(p: Plan<Op>)
    ensures OpsAt(p, 0, []) == []
  {
  }

  lemma {:induction false} OpsAtFirst(p: Plan<Op>, ids: seq<Id>)
    requires ids != []
    ensures OpsAt(p, 0, ids) == OpHere(p, ids[0]) + OpsAt(p, 0, ids[1..])
  {
  }

  lemma {:induction false} OpsAtRemove(p: Plan<Op>, ids: seq<Id>, k: nat)
    requires k < |ids|
    ensures multiset(OpsAt(p, 0, ids)) == multiset(OpHere(p, ids[k])) + multiset(OpsAt(p, 0, ids[..k] + ids[k + 1..]))
  {
    assert ids == ids[..k] + ([ids[k]] + ids[k + 1..]);
    OpsAtJoin(p, ids[..k], [ids[k]] + ids[k + 1..]);
    OpsAtJoin(p, [ids[k]], ids[k + 1..]);
    OpsAtJoin(p, ids[..k], ids[k + 1..]);
    assert [ids[k]][1..] == [];
    assert OpsAt(p, 0, [ids[k]]) == OpHere(p, ids[k]) + [];
  }

  lemma {:induction false} OpsAtNothing(p: Plan<Op>, ids: seq<Id>)
    requires forall i :: i in ids ==> OpAt(p, 0, i).None?
    ensures OpsAt(p, 0, ids) == []
    decreases |ids|
  {
    if ids != [] {
      OpsAtNothing(p, ids[1..]);
    }
  }

  /** Two lists without repeats that hold the same single actions perform the same actions, in some order. */
  lemma {:induction false} SameActions(p: Plan<Op>, a: seq<Id>, b: seq<Id>)
    requires NoRepeats(a) && NoRepeats(b)
    requires forall i :: OpAt(p, 0, i).Some? ==> (i in a <==> i in b)
    ensures multiset(OpsAt(p, 0, a)) == multiset(OpsAt(p, 0, b))
    decreases |a|
  {
    if a == [] {
      OpsAtNothing(p, b);
    } else {
      var i, rest := a[0], a[1..];
      assert a == [i] + rest && i !in rest && NoRepeats(rest);
      if OpAt(p, 0, i).None? {
        SameActions(p, rest, b);
      } else {
        var k :| 0 <= k < |b| && b[k] == i;
        WithoutOne(b, k);
        SameActions(p, rest, b[..k] + b[k + 1..]);
        OpsAtRemove(p, b, k);
      }
    }
  }

  lemma {:induction false} WithoutOne(b: seq<Id>, k: nat)
    requires NoRepeats(b) && k < |b|
    ensures NoRepeats(b[..k] + b[k + 1..])
    ensures forall i :: i in b[..k] + b[k + 1..] <==> i in b && i != b[k]
  {
    var rest := b[..k] + b[k + 1..];
    assert forall m :: 0 <= m < |rest| ==> rest[m] == b[if m < k then m else m + 1];
    forall i | i in b && i != b[k] ensures i in rest {
      var m :| 0 <= m < |b| && b[m] == i;
      assert rest[if m < k then m else m - 1] == i;
    }
  }

  /** The single actions among those that ended well, without repeats. */
  lemma {:induction false} EndedWellOnce(g: Graph, p: Plan<Op>, run: seq<System>, m: nat, n: nat)
    requires Completed(g, p, run) && m < n < |EndedWell(Log(run))| && OpAt(p, 0, EndedWell(Log(run))[m]).Some?
    ensures EndedWell(Log(run))[m] != EndedWell(Log(run))[n]
  {
    var log, x := Log(run), EndedWell(Log(run))[m];
    var i, j := EndedWellPair(log, m, n);
    OpAtSingle(g, p, 0, Count(p), [], [], x);
    CompletedOnce(g, p, run, x);
    if log[j] == Ended(x, true) {
      assert log[..j][i] == Ended(x, true);
      EndOnce(log, j, x);
    }
  }

  /** The numbers that stand for single actions. */
  function Real(p: Plan<Op>, ids: seq<Id>): (r: seq<Id>)
    ensures forall i :: i in r <==> i in ids && OpAt(p, 0, i).Some?
    ensures OpsAt(p, 0, r) == OpsAt(p, 0, ids)
  {
    if ids == [] then []
    else
      var rest := Real(p, ids[1..]);
      assert ids == [ids[0]] + ids[1..];
      if OpAt(p, 0, ids[0]).Some? then
        assert ([ids[0]] + rest)[1..] == rest;
        [ids[0]] + rest
      else rest
  }

  lemma {:induction false} RealOnce(p: Plan<Op>, ids: seq<Id>)
    requires forall m, n :: 0 <= m < n < |ids| && OpAt(p, 0, ids[m]).Some? ==> ids[m] != ids[n]
    ensures NoRepeats(Real(p, ids))
    decreases |ids|
  {
    if ids != [] {
      var rest := ids[1..];
      assert forall m :: 0 <= m < |rest| ==> rest[m] == ids[m + 1];
      RealOnce(p, rest);
      if OpAt(p, 0, ids[0]).Some? {
        assert ids[0] !in rest;
      }
    }
  }

  /** A completed run performs each action of the plan exactly once. */
  lemma {:induction false} EachActionOnce(g: Graph, p: Plan<Op>, run: seq<System>)
    requires Completed(g, p, run)
    ensures multiset(OpsAt(p, 0, EndedWell(Log(run)))) == multiset(Ops(p))
  {
    var ids, leaves := EndedWell(Log(run)), Leaves(p, 0);
    forall m, n | 0 <= m < n < |ids| && OpAt(p, 0, ids[m]).Some? ensures ids[m] != ids[n] {
      EndedWellOnce(g, p, run, m, n);
    }
    RealOnce(p, ids);
    LeavesShape(p, 0);
    forall i | OpAt(p, 0, i).Some? ensures i in ids && i in leaves {
      OpAtSingle(g, p, 0, Count(p), [], [], i);
      CompletedOnce(g, p, run, i);
    }
    SameActions(p, Real(p, ids), leaves);
    OpsAtLeaves(p, 0);
  }
}
