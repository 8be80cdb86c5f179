/**
  The order of the actions of an update: what a level deletes goes before what
  it creates and updates, nothing old overlaps with what replaces it, and each
  child's actions are there exactly once.
*/
module LevelOrder {
  import opened ActionGraph
  import opened ActionInvariant
  import opened ActionRuns
  import opened ActionTree
  import opened PlanOrder
  import opened PlanSchedule
  import opened Resources
  import opened Deployers
  import opened Convergence
  import opened UpdatePlans

  type OpSet = Op -> bool

  predicate NoneOf(ops: seq<Op>, x: OpSet) {
    forall n | 0 <= n < |ops| :: !x(ops[n])
  }

  // ------------------------------------------------------------------------
  // Plans that put some actions before others
  // ------------------------------------------------------------------------

  /** No action of `y` in item `p` may run before or beside an action of `x` in the later item `q`, or beside it the other way. */
  predicate OneWay(inSequence: bool, p: Plan<Op>, q: Plan<Op>, x: OpSet, y: OpSet) {
    && (NoneOf(Ops(q), x) || NoneOf(Ops(p), y))
    && (inSequence || NoneOf(Ops(p), x) || NoneOf(Ops(q), y))
  }

  /** The sequences of the plan put every action of `x` before every action of `y`. */
  predicate FirstThen(p: Plan<Op>, x: OpSet, y: OpSet) {
    match p
    case Single(op) => !(x(op) && y(op))
    case Group(inSequence, items) =>
      && (forall m | 0 <= m < |items| :: FirstThen(items[m], x, y))
      && (forall m, n | 0 <= m < n < |items| :: OneWay(inSequence, items[m], items[n], x, y))
  }

  predicate InSet(op: Option<Op>, x: OpSet) {
    op.Some? && x(op.value)
  }

  lemma {:induction false} SomeOf(ops: seq<Op>, op: Op, x: OpSet)
    requires op in ops && x(op)
    ensures !NoneOf(ops, x)
  {
  }

  lemma {:induction false} OpAtAmong(p: Plan<Op>, base: nat, i: Id)
    requires OpAt(p, base, i).Some?
    ensures OpAt(p, base, i).value in Ops(p)
    decreases p, 0, 0
  {
    if p.Group? {
      var n := OpInAmong(p.items, base, i);
    }
  }

  lemma {:induction false} OpInAmong(items: seq<Plan<Op>>, base: nat, i: Id) returns (n: nat)
    requires OpIn(items, base, i).Some?
    ensures n < |items| && OpIn(items, base, i).value in Ops(items[n])
    ensures OpIn(items, base, i).value in OpsAll(items)
    decreases items, 1, |items|
  {
    if i < base + Count(items[0]) {
      OpAtAmong(items[0], base, i);
      n := 0;
    } else {
      n := OpInAmong(items[1..], base + Count(items[0]), i);
      n := n + 1;
    }
  }

  lemma {:induction false} FirstThenPrecedes(p: Plan<Op>, base: nat, i: Id, j: Id, x: OpSet, y: OpSet)
    requires FirstThen(p, x, y) && InSet(OpAt(p, base, i), x) && InSet(OpAt(p, base, j), y)
    ensures i < j && Precedes(p, base, i, j)
    decreases p, 0, 0
  {
    if p.Group? {
      FirstThenPrecedesIn(p.inSequence, p.items, base, i, j, x, y);
    }
  }

  lemma {:induction false} FirstThenPrecedesIn(inSequence: bool, items: seq<Plan<Op>>, base: nat, i: Id, j: Id, x: OpSet, y: OpSet)
    requires FirstThen(Group(inSequence, items), x, y)
    requires InSet(OpIn(items, base, i), x) && InSet(OpIn(items, base, j), y)
    ensures i < j && PrecedesIn(inSequence, items, base, i, j)
    decreases items, 1, |items|
  {
    var next, rest := base + Count(items[0]), items[1..];
    if i < next && j < next {
      FirstThenPrecedes(items[0], base, i, j, x, y);
    } else if i < next {
      OpAtAmong(items[0], base, i);
      SomeOf(Ops(items[0]), OpAt(items[0], base, i).value, x);
      var n := OpInAmong(rest, next, j);
      SomeOf(Ops(items[n + 1]), OpIn(rest, next, j).value, y);
      assert OneWay(inSequence, items[0], items[n + 1], x, y);
    } else if j < next {
      OpAtAmong(items[0], base, j);
      SomeOf(Ops(items[0]), OpAt(items[0], base, j).value, y);
      var n := OpInAmong(rest, next, i);
      SomeOf(Ops(items[n + 1]), OpIn(rest, next, i).value, x);
      assert false;
    } else {
      RestFirstThen(inSequence, items, x, y);
      FirstThenPrecedesIn(inSequence, rest, next, i, j, x, y);
    }
  }

  lemma {:induction false} RestFirstThen(inSequence: bool, items: seq<Plan<Op>>, x: OpSet, y: OpSet)
    requires items != [] && FirstThen(Group(inSequence, items), x, y)
    ensures FirstThen(Group(inSequence, items[1..]), x, y)
  {
    var rest := items[1..];
    assert forall n :: 0 <= n < |rest| ==> rest[n] == items[n + 1];
    forall m, n | 0 <= m < n < |rest| ensures OneWay(inSequence, rest[m], rest[n], x, y) {
      assert OneWay(inSequence, items[m + 1], items[n + 1], x, y);
    }
  }

  /** In every run, whatever its workers do, the first kind has ended well before the second kind starts. */
  lemma {:induction false} StartsAfter(g: Graph, p: Plan<Op>, run: seq<System>, n: nat, k: nat, x: OpSet, y: OpSet, i: Id)
    requires Realizes(g, p) && TamePlan(p) && FirstThen(p, x, y)
    requires WellFormed(g) && IsRun(g, run) && n < |run| && k < |run[n].log|
    requires run[n].log[k].Started? && InSet(OpAt(p, 0, run[n].log[k].id), y)
    requires InSet(OpAt(p, 0, i), x)
    ensures Ended(i, true) in run[n].log[..k]
  {
    var j := run[n].log[k].id;
    TamePlanTameGraph(g, p);
    OpAtSingle(g, p, 0, Count(p), [], [], i);
    OpAtSingle(g, p, 0, Count(p), [], [], j);
    FirstThenPrecedes(p, 0, i, j, x, y);
    PrecedesLeads(g, p, 0, Count(p), [], [], i, j);
    RunsExtendTheOrder(g, run, n);
    assert StartInOrder(g, run[n].log, k);
  }

  // ------------------------------------------------------------------------
  // Composing such plans
  // ------------------------------------------------------------------------

  lemma {:induction false} NoneOfItem(items: seq<Plan<Op>>, n: nat, x: OpSet)
    requires n < |items| && NoneOf(OpsAll(items), x)
    ensures NoneOf(Ops(items[n]), x)
    decreases n
  {
    var first, rest := Ops(items[0]), OpsAll(items[1..]);
    if n == 0 {
      forall m | 0 <= m < |first| ensures !x(first[m]) {
        assert (first + rest)[m] == first[m];
      }
    } else {
      forall m | 0 <= m < |rest| ensures !x(rest[m]) {
        assert (first + rest)[|first| + m] == rest[m];
      }
      NoneOfItem(items[1..], n - 1, x);
    }
  }

  lemma {:induction false} NoneOfItems(items: seq<Plan<Op>>, x: OpSet)
    requires forall n :: 0 <= n < |items| ==> NoneOf(Ops(items[n]), x)
    ensures NoneOf(OpsAll(items), x)
    decreases |items|
  {
    if items != [] {
      NoneOfItems(items[1..], x);
    }
  }

  /** A plan without actions of one of the two kinds is in order. */
  lemma {:induction false} QuietInOrder(p: Plan<Op>, x: OpSet, y: OpSet)
    requires NoneOf(Ops(p), x) || NoneOf(Ops(p), y)
    ensures FirstThen(p, x, y)
    decreases p
  {
    if p.Single? {
      assert Ops(p)[0] == p.op;
    } else {
      forall n | 0 <= n < |p.items|
        ensures FirstThen(p.items[n], x, y)
        ensures NoneOf(Ops(p), x) ==> NoneOf(Ops(p.items[n]), x)
        ensures NoneOf(Ops(p), y) ==> NoneOf(Ops(p.items[n]), y)
      {
        if NoneOf(Ops(p), x) {
          NoneOfItem(p.items, n, x);
        }
        if NoneOf(Ops(p), y) {
          NoneOfItem(p.items, n, y);
        }
        QuietInOrder(p.items[n], x, y);
      }
    }
  }

  predicate ActInOrder(a: Action, x: OpSet, y: OpSet) {
    a.Some? ==> FirstThen(a.value, x, y)
  }

  /** Two actions of a group, of which at most one has actions of the two kinds. */
  predicate Apart(a: Action, b: Action, x: OpSet, y: OpSet) {
    && (NoneOf(OpsOf(a), x) || NoneOf(OpsOf(b), y))
    && (NoneOf(OpsOf(a), y) || NoneOf(OpsOf(b), x))
  }

  predicate InOrder(acts: seq<Action>, x: OpSet, y: OpSet) {
    && (forall n | 0 <= n < |acts| :: ActInOrder(acts[n], x, y))
    && (forall m, n | 0 <= m < n < |acts| :: Apart(acts[m], acts[n], x, y))
  }

  lemma {:induction false} GroupInOrder(acts: seq<Action>, x: OpSet, y: OpSet)
    requires InOrder(acts, x, y)
    ensures FirstThen(ActionGroup(acts), x, y)
  {
    var items := NonNull(acts);
    forall n | 0 <= n < |items| ensures FirstThen(items[n], x, y) {
      var i := NonNullFrom(acts, n);
      assert ActInOrder(acts[i], x, y);
    }
    forall m, n | 0 <= m < n < |items| ensures OneWay(false, items[m], items[n], x, y) {
      var i, j := NonNullPair(acts, m, n);
      assert Apart(acts[i], acts[j], x, y);
    }
  }

  lemma {:induction false} PairItems(a: Action, b: Action)
    ensures ActionSequence([a, b]) == ActionSequence([None, a, b])
    ensures ActionSequence([a, b]) ==
      Group(true, (if a.Some? then [a.value] else []) + (if b.Some? then [b.value] else []))
  {
    var none: Action := None;
    assert [none, a, b][1..] == [a, b] && [a, b][1..] == [b] && [b][1..] == [];
    assert NonNull([b]) == (if b.Some? then [b.value] else []) + NonNull([]);
    assert NonNull([a, b]) == (if a.Some? then [a.value] else []) + NonNull([b]);
    assert NonNull([none, a, b]) == [] + NonNull([a, b]);
  }

  lemma {:induction false} PairInOrder(a: Action, b: Action, x: OpSet, y: OpSet)
    requires ActInOrder(a, x, y) && ActInOrder(b, x, y)
    requires NoneOf(OpsOf(b), x) || NoneOf(OpsOf(a), y)
    ensures FirstThen(ActionSequence([a, b]), x, y) && FirstThen(ActionSequence([None, a, b]), x, y)
  {
    hide NonNull, ActionSequence, NoneOf;
    PairItems(a, b);
  }

  /** A composite is in order if its children are and one of its two parts is without the two kinds. */
  lemma {:induction false} CompositeInOrder(children: seq<Action>, after: Action, x: OpSet, y: OpSet)
    requires InOrder(children, x, y) && ActInOrder(after, x, y)
    requires NoneOf(OpsOf(after), x) || NoneOf(Flat(children), y)
    ensures ActInOrder(GenerateComposite(children, None, after), x, y)
  {
    var middle := MiddleOf(children);
    OpsOfMiddle(children);
    GroupInOrder(children, x, y);
    assert ActInOrder(middle, x, y);
    PairInOrder(middle, after, x, y);
  }

  // ------------------------------------------------------------------------
  // A level whose ordered actions all belong to one child
  // ------------------------------------------------------------------------

  function Below(path: Path): OpSet {
    (op: Op) => path <= op.path
  }

  /** All actions of the kind are for one child. */
  ghost predicate Confined(x: OpSet, path: Path, name: string) {
    forall op :: x(op) ==> path + [name] <= op.path
  }

  /** The plans are in order, and only the one with this name has actions of the two kinds. */
  ghost predicate Focused(plans: seq<Plan<Op>>, names: seq<string>, x: OpSet, y: OpSet, name: string) {
    && |names| == |plans|
    && Different(names)
    && forall n :: 0 <= n < |plans| ==>
         FirstThen(plans[n], x, y) && (names[n] == name || (NoneOf(Ops(plans[n]), x) && NoneOf(Ops(plans[n]), y)))
  }

  lemma {:induction false} OtherChild(path: Path, name: string, other: string, p: Path)
    requires path + [other] <= p && name != other
    ensures !(path + [name] <= p)
  {
    assert p[|path|] == (path + [other])[|path|] == other;
    assert (path + [name])[|path|] == name;
  }

  lemma {:induction false} ElsewhereNone(ops: seq<Op>, x: OpSet, path: Path, name: string, other: string)
    requires Within(ops, path + [other]) && Confined(x, path, name) && name != other
    ensures NoneOf(ops, x)
  {
    forall n | 0 <= n < |ops| ensures !x(ops[n]) {
      OtherChild(path, name, other, ops[n].path);
    }
  }

  lemma {:induction false} NamedFocused(plans: seq<Plan<Op>>, path: Path, names: seq<string>, x: OpSet, y: OpSet, name: string)
    requires Named(plans, path, names) && Confined(x, path, name) && Confined(y, path, name)
    requires forall n :: 0 <= n < |plans| ==> FirstThen(plans[n], x, y)
    ensures Focused(plans, names, x, y, name)
  {
    forall n | 0 <= n < |plans| && names[n] != name
      ensures NoneOf(Ops(plans[n]), x) && NoneOf(Ops(plans[n]), y)
    {
      ElsewhereNone(Ops(plans[n]), x, path, name, names[n]);
      ElsewhereNone(Ops(plans[n]), y, path, name, names[n]);
    }
  }

  lemma {:induction false} FocusedJoin(p: seq<Plan<Op>>, q: seq<Plan<Op>>, m: seq<string>, n: seq<string>,
                                       x: OpSet, y: OpSet, name: string)
    requires Focused(p, m, x, y, name) && Focused(q, n, x, y, name) && forall z :: z in m ==> z !in n
    ensures Focused(p + q, m + n, x, y, name)
  {
    forall i, j | 0 <= i < j < |m + n| ensures (m + n)[i] != (m + n)[j] {
      if i < |m| <= j {
        assert m[i] in m && n[j - |m|] in n;
      }
    }
  }

  lemma {:induction false} FocusedInOrder(plans: seq<Plan<Op>>, names: seq<string>, x: OpSet, y: OpSet, name: string)
    requires Focused(plans, names, x, y, name)
    ensures InOrder(Wrap(plans), x, y)
    ensures plans != [] ==> ActInOrder(OneOrGroup(plans), x, y)
    ensures name !in names ==> NoneOf(OpsAll(plans), x) && NoneOf(OpsAll(plans), y)
  {
    WrapAt(plans);
    forall m, n | 0 <= m < n < |plans| ensures Apart(Wrap(plans)[m], Wrap(plans)[n], x, y) {
      assert names[m] != names[n];
    }
    GroupInOrder(Wrap(plans), x, y);
    if name !in names {
      forall n | 0 <= n < |plans| ensures NoneOf(Ops(plans[n]), x) && NoneOf(Ops(plans[n]), y) {
        assert names[n] in names;
      }
      NoneOfItems(plans, x);
      NoneOfItems(plans, y);
    }
  }

  /** A level is in order if each of its plans is. */
  lemma {:induction false} LevelInOrder(updates: seq<Plan<Op>>, creates: seq<Plan<Op>>, deletes: seq<Plan<Op>>,
                                        u: seq<string>, c: seq<string>, d: seq<string>, x: OpSet, y: OpSet, name: string)
    requires Focused(updates, u, x, y, name) && Focused(creates, c, x, y, name) && Focused(deletes, d, x, y, name)
    requires forall m :: m in u ==> m !in c
    requires forall m :: m in u + c ==> m !in d
    ensures InOrder(LevelActions(updates, creates, deletes), x, y)
  {
    if Nested(updates, creates, deletes) {
      FocusedJoin(creates, updates, c, u, x, y, name);
      FocusedInOrder(deletes, d, x, y, name);
      FocusedInOrder(creates + updates, c + u, x, y, name);
      OpsOfOneOrGroup(deletes);
      OpsOfOneOrGroup(creates + updates);
      assert name in c + u ==> name in u + c;
      PairInOrder(OneOrGroup(deletes), OneOrGroup(creates + updates), x, y);
    } else {
      FocusedJoin(updates, creates, u, c, x, y, name);
      FocusedJoin(updates + creates, deletes, u + c, d, x, y, name);
      FocusedInOrder(updates + creates + deletes, u + c + d, x, y, name);
    }
  }

  // ------------------------------------------------------------------------
  // Removals go first
  // ------------------------------------------------------------------------

  predicate Removes(op: Op) {
    op.DeleteChefNode? || op.DeleteVm? || op.DeleteEnvironment? || op.DeleteProxy? || op.ClosePorts?
  }

  function RemovalsAt(place: Path): OpSet {
    (op: Op) => op.path == place && Removes(op)
  }

  function MakingsAt(place: Path): OpSet {
    (op: Op) => op.path == place && !Removes(op)
  }

  lemma {:induction false} NoneOfJoin(a: seq<Op>, b: seq<Op>, x: OpSet)
    requires NoneOf(a, x) && NoneOf(b, x)
    ensures NoneOf(a + b, x)
  {
  }

  lemma {:induction false} VmRemovesNothing(s: Settings, d: Deployment, path: Path, place: Path)
    requires d.Vm?
    ensures NoneOf(OpsOf(CreatePlan(s, d, path)), RemovalsAt(place))
  {
    hide ActionSequence, CreateMachine;
    VmCreateOps(s, d, path);
  }

  lemma {:induction false} HooksOneSided(s: Settings, service: Option<Service>, path: Path, place: Path)
    ensures NoneOf(OpsOf(AfterCreated(s, service, path)), RemovalsAt(place))
    ensures NoneOf(OpsOf(AfterDeleted(s, service, path)), MakingsAt(place))
    ensures place != path ==> NoneOf(OpsOf(AfterCreated(s, service, path)), MakingsAt(place))
    ensures place != path ==> NoneOf(OpsOf(AfterDeleted(s, service, path)), RemovalsAt(place))
  {
    hide AfterDeleted, AfterCreated;
    HookOps(s, service, path);
  }

  /** Creating a deployment removes nothing. */
  lemma {:induction false} CreateRemovesNothing(s: Settings, d: Deployment, path: Path, place: Path)
    ensures NoneOf(OpsOf(CreatePlan(s, d, path)), RemovalsAt(place))
    decreases d, 0, 0
  {
    hide GenerateComposite, ActionSequence, ActionGroup, AfterCreated, CreateMachine;
    match d {
      case Vm(_, _, _, _, _, _, _) =>
        VmRemovesNothing(s, d, path, place);
      case Environment(_, _) =>
      case External(_) =>
      case Composite(_, service, children) =>
        CreateAllRemovesNothing(s, children, path, place);
        OpsOfComposite(CreateAll(s, children, path), None, AfterCreated(s, service, path));
        HooksOneSided(s, service, path, place);
        NoneOfJoin(Flat(CreateAll(s, children, path)), OpsOf(AfterCreated(s, service, path)), RemovalsAt(place));
    }
  }

  lemma {:induction false} CreateAllRemovesNothing(s: Settings, ds: seq<Deployment>, path: Path, place: Path)
    ensures NoneOf(Flat(CreateAll(s, ds, path)), RemovalsAt(place))
    decreases ds, 1, |ds|
  {
    if ds != [] {
      CreateRemovesNothing(s, ds[0], path + [ds[0].name], place);
      CreateAllRemovesNothing(s, ds[1..], path, place);
      NoneOfJoin(OpsOf(CreatePlan(s, ds[0], path + [ds[0].name])), Flat(CreateAll(s, ds[1..], path)), RemovalsAt(place));
    }
  }

  /** Deleting a deployment makes nothing. */
  lemma {:induction false} DeleteMakesNothing(s: Settings, d: Deployment, path: Path, place: Path)
    ensures NoneOf(OpsOf(DeletePlan(s, d, path)), MakingsAt(place))
    decreases d, 0, 0
  {
    hide GenerateComposite, ActionSequence, ActionGroup, AfterDeleted, CreateMachine;
    match d {
      case Vm(_, _, _, _, _, _, _) =>
        VmDeleteOps(s, d, path);
      case Environment(_, _) =>
      case External(_) =>
      case Composite(_, service, children) =>
        DeleteAllMakesNothing(s, children, path, place);
        OpsOfComposite(DeleteAll(s, children, path), None, AfterDeleted(s, service, path));
        HooksOneSided(s, service, path, place);
        NoneOfJoin(Flat(DeleteAll(s, children, path)), OpsOf(AfterDeleted(s, service, path)), MakingsAt(place));
    }
  }

  lemma {:induction false} DeleteAllMakesNothing(s: Settings, ds: seq<Deployment>, path: Path, place: Path)
    ensures NoneOf(Flat(DeleteAll(s, ds, path)), MakingsAt(place))
    decreases ds, 1, |ds|
  {
    if ds != [] {
      DeleteMakesNothing(s, ds[0], path + [ds[0].name], place);
      DeleteAllMakesNothing(s, ds[1..], path, place);
      NoneOfJoin(OpsOf(DeletePlan(s, ds[0], path + [ds[0].name])), Flat(DeleteAll(s, ds[1..], path)), MakingsAt(place));
    }
  }

  lemma {:induction false} CreateNewInOrder(s: Settings, olds: seq<Deployment>, news: seq<Deployment>, path: Path, place: Path)
    ensures forall p :: p in NonNull(CreateNew(s, olds, news, path)) ==> FirstThen(p, RemovalsAt(place), MakingsAt(place))
    decreases |news|
  {
    if news != [] {
      CreateNewInOrder(s, olds, news[1..], path, place);
      var create := CreatePlan(s, news[0], path + [news[0].name]);
      CreateRemovesNothing(s, news[0], path + [news[0].name], place);
      if create.Some? {
        QuietInOrder(create.value, RemovalsAt(place), MakingsAt(place));
      }
    }
  }

  lemma {:induction false} DeleteOldInOrder(s: Settings, olds: seq<Deployment>, news: seq<Deployment>, path: Path, place: Path)
    ensures forall p :: p in NonNull(DeleteOld(s, olds, news, path)) ==> FirstThen(p, RemovalsAt(place), MakingsAt(place))
    decreases |olds|
  {
    if olds != [] {
      DeleteOldInOrder(s, olds[1..], news, path, place);
      var delete := DeletePlan(s, olds[0], path + [olds[0].name]);
      DeleteMakesNothing(s, olds[0], path + [olds[0].name], place);
      if delete.Some? {
        QuietInOrder(delete.value, RemovalsAt(place), MakingsAt(place));
      }
    }
  }

  lemma {:induction false} UpdateAllInOrder(s: Settings, olds: seq<Deployment>, news: seq<Deployment>, path: Path, place: Path)
    requires Children(olds) && Children(news) && forall c :: c in news ==> SameKindAs(olds, c)
    ensures forall p :: p in UpdateAll(s, olds, news, path) ==> FirstThen(p, RemovalsAt(place), MakingsAt(place))
    decreases news, 1, |news|
  {
    if news != [] {
      RestDistinct(news);
      UpdateAllInOrder(s, olds, news[1..], path, place);
      var b := ChildByName(olds, news[0].name);
      if b.Some? {
        assert SameKindAs(olds, news[0]);
        RemovalsFirst(s, b.value, news[0], path + [news[0].name], place);
      }
    }
  }

  /** The child, if any, for which actions at some place are. */
  function ChildAt(path: Path, place: Path): string {
    if path < place then place[|path|] else ""
  }

  lemma {:induction false} NamedFocusedAt(plans: seq<Plan<Op>>, path: Path, names: seq<string>, place: Path)
    requires Named(plans, path, names)
    requires forall p :: p in plans ==> FirstThen(p, RemovalsAt(place), MakingsAt(place))
    ensures Focused(plans, names, RemovalsAt(place), MakingsAt(place), ChildAt(path, place))
    ensures place == path ==> NoneOf(OpsAll(plans), MakingsAt(place))
  {
    forall n | 0 <= n < |plans| && (names[n] != ChildAt(path, place) || place == path)
      ensures NoneOf(Ops(plans[n]), RemovalsAt(place)) && NoneOf(Ops(plans[n]), MakingsAt(place))
    {
      ElsewhereNoneAt(Ops(plans[n]), path, names[n], place);
    }
    if place == path {
      NoneOfItems(plans, MakingsAt(place));
    }
  }

  lemma {:induction false} ElsewhereNoneAt(ops: seq<Op>, path: Path, name: string, place: Path)
    requires Within(ops, path + [name]) && (name != ChildAt(path, place) || place == path)
    ensures NoneOf(ops, RemovalsAt(place)) && NoneOf(ops, MakingsAt(place))
  {
    forall n | 0 <= n < |ops| ensures ops[n].path != place {
      var p := ops[n].path;
      assert path < path + [name] <= p && p[|path|] == (path + [name])[|path|] == name;
    }
  }

  /** An updated composite is in order if its plans and the actions after its children are. */
  lemma {:induction false} UpdateInOrder(s: Settings, b: Deployment, a: Deployment, path: Path,
                                         u: seq<string>, c: seq<string>, d: seq<string>, x: OpSet, y: OpSet, name: string)
    requires b.Composite? && a.Composite?
    requires Focused(UpdateAll(s, b.children, a.children, path), u, x, y, name)
    requires Focused(NonNull(CreateNew(s, b.children, a.children, path)), c, x, y, name)
    requires Focused(NonNull(DeleteOld(s, b.children, a.children, path)), d, x, y, name)
    requires forall m :: m in u ==> m !in c
    requires forall m :: m in u + c ==> m !in d
    requires ActInOrder(AfterUpdated(s, b.service, a.service, path), x, y)
    requires NoneOf(OpsOf(AfterUpdated(s, b.service, a.service, path)), x)
          || NoneOf(LevelOps(s, b.children, a.children, path), y)
    ensures ActInOrder(UpdatePlan(s, b, a, path), x, y)
  {
    hide GenerateComposite, LevelActions, FirstThen, NoneOf, AfterUpdated;
    var updates := UpdateAll(s, b.children, a.children, path);
    var creates := NonNull(CreateNew(s, b.children, a.children, path));
    var deletes := NonNull(DeleteOld(s, b.children, a.children, path));
    LevelInOrder(updates, creates, deletes, u, c, d, x, y, name);
    OpsOfLevel(updates, creates, deletes);
    CompositeInOrder(LevelActions(updates, creates, deletes), AfterUpdated(s, b.service, a.service, path), x, y);
  }

  lemma {:induction false} ServiceOneSided(s: Settings, service: Service, proxy: string, path: Path, place: Path)
    ensures NoneOf(OpsOf(ServiceActions(s, service, proxy, path)), RemovalsAt(place))
  {
    hide ServiceActions;
    ServiceOps(s, service, proxy, path);
  }

  lemma {:induction false} HookInOrder(s: Settings, before: Option<Service>, after: Option<Service>, path: Path, place: Path)
    ensures ActInOrder(AfterUpdated(s, before, after, path), RemovalsAt(place), MakingsAt(place))
    ensures place != path ==> NoneOf(OpsOf(AfterUpdated(s, before, after, path)), RemovalsAt(place))
  {
    hide AfterDeleted, ServiceActions, NoneOf, FirstThen;
    var x, y := RemovalsAt(place), MakingsAt(place);
    UpdateHookOps(s, before, after, path);
    if after.Some? {
      var makes := ServiceActions(s, after.value, ProxyOf(before, after.value), path);
      HooksOneSided(s, before, path, place);
      ServiceOneSided(s, after.value, ProxyOf(before, after.value), path, place);
      QuietAct(AfterDeleted(s, before, path), x, y);
      QuietAct(makes, x, y);
      PairInOrder(AfterDeleted(s, before, path), makes, x, y);
      if place != path {
        NoneOfJoin(OpsOf(AfterDeleted(s, before, path)), OpsOf(makes), x);
      }
    } else {
      NoneOfNothing(x);
    }
  }

  lemma {:induction false} NoneOfNothing(x: OpSet)
    ensures NoneOf([], x)
  {
  }

  lemma {:induction false} VmInOrder(s: Settings, b: Deployment, a: Deployment, path: Path, place: Path)
    requires b.Vm? && a.Vm?
    ensures ActInOrder(UpdateMachine(s, b, a, path), RemovalsAt(place), MakingsAt(place))
  {
    hide CreatePlan, DeletePlan, ActionSequence;
    var x, y := RemovalsAt(place), MakingsAt(place);
    if Recreated(s, b, a, path) {
      DeleteMakesNothing(s, b, path, place);
      CreateRemovesNothing(s, a, path, place);
      QuietAct(DeletePlan(s, b, path), x, y);
      QuietAct(CreatePlan(s, a, path), x, y);
      PairInOrder(DeletePlan(s, b, path), CreatePlan(s, a, path), x, y);
    } else {
      UpdateVmOps(s, b, a, path);
      QuietAct(UpdateMachine(s, b, a, path), x, y);
    }
  }

  lemma {:induction false} QuietAct(a: Action, x: OpSet, y: OpSet)
    requires NoneOf(OpsOf(a), x) || NoneOf(OpsOf(a), y)
    ensures ActInOrder(a, x, y)
  {
    if a.Some? {
      QuietInOrder(a.value, x, y);
    }
  }

  lemma {:induction false} EnvironmentInOrder(path: Path, attributes: string, place: Path)
    ensures FirstThen(ActionSequence([Act(DeleteEnvironment(path)), Act(CreateEnvironment(path, attributes))]),
              RemovalsAt(place), MakingsAt(place))
  {
    PairInOrder(Act(DeleteEnvironment(path)), Act(CreateEnvironment(path, attributes)), RemovalsAt(place), MakingsAt(place));
  }

  /**
    Recreation never overlaps old and new: wherever an update removes something and makes
    something, the plan puts all the removals before all that is made.
  */
  lemma {:induction false} RemovalsFirst(s: Settings, b: Deployment, a: Deployment, path: Path, place: Path)
    requires WellNamed(b) && WellNamed(a) && SameKind(b, a)
    ensures ActInOrder(UpdatePlan(s, b, a, path), RemovalsAt(place), MakingsAt(place))
    decreases a, 0, 0
  {
    match (b, a) {
      case (Vm(_, _, _, _, _, _, _), Vm(_, _, _, _, _, _, _)) =>
        VmInOrder(s, b, a, path, place);
      case (Environment(_, _), Environment(_, attributes)) =>
        EnvironmentInOrder(path, attributes, place);
      case (External(_), External(_)) =>
      case (Composite(_, bService, olds), Composite(_, aService, news)) =>
        UpdateAllInOrder(s, olds, news, path, place);
        LevelRemovalsFirst(s, b, a, path, place);
    }
  }

  lemma {:induction false} LevelRemovalsFirst(s: Settings, b: Deployment, a: Deployment, path: Path, place: Path)
    requires b.Composite? && a.Composite? && WellNamed(b) && WellNamed(a) && SameKind(b, a)
    requires forall p :: p in UpdateAll(s, b.children, a.children, path) ==> FirstThen(p, RemovalsAt(place), MakingsAt(place))
    ensures ActInOrder(UpdatePlan(s, b, a, path), RemovalsAt(place), MakingsAt(place))
  {
    hide GenerateComposite, LevelActions, FirstThen, NoneOf, AfterUpdated, UpdatePlan, Named, Focused, CreateNew, DeleteOld, UpdateAll;
    var olds, news := b.children, a.children;
    var u := UpdateAllNamed(s, olds, news, path);
    var c := CreateNewNamed(s, olds, news, path);
    var d := DeleteOldNamed(s, olds, news, path);
    CreateNewInOrder(s, olds, news, path, place);
    DeleteOldInOrder(s, olds, news, path, place);
    NamedFocusedAt(UpdateAll(s, olds, news, path), path, u, place);
    NamedFocusedAt(NonNull(CreateNew(s, olds, news, path)), path, c, place);
    NamedFocusedAt(NonNull(DeleteOld(s, olds, news, path)), path, d, place);
    HookInOrder(s, b.service, a.service, path, place);
    if place == path {
      LevelNoneOf(s, olds, news, path, MakingsAt(place));
    }
    UpdateInOrder(s, b, a, path, u, c, d, RemovalsAt(place), MakingsAt(place), ChildAt(path, place));
  }

  lemma {:induction false} LevelNoneOf(s: Settings, olds: seq<Deployment>, news: seq<Deployment>, path: Path, x: OpSet)
    requires NoneOf(OpsAll(UpdateAll(s, olds, news, path)), x)
    requires NoneOf(OpsAll(NonNull(CreateNew(s, olds, news, path))), x)
    requires NoneOf(OpsAll(NonNull(DeleteOld(s, olds, news, path))), x)
    ensures NoneOf(LevelOps(s, olds, news, path), x)
  {
  }

  // ------------------------------------------------------------------------
  // A level's deletions go first
  // ------------------------------------------------------------------------

  /** The deployment at some place below another. */
  function Sub(d: Deployment, rest: Path): Option<Deployment>
    decreases |rest|
  {
    if rest == [] then Some(d)
    else if !d.Composite? then None
    else
      var c := ChildByName(d.children, rest[0]);
      if c.None? then None else Sub(c.value, rest[1..])
  }

  /** Of the composites at `rest`, the old one alone has a child `m`, and the new one has a child `n`. */
  predicate Replaces(b: Deployment, a: Deployment, rest: Path, m: string, n: string) {
    var was, now := Sub(b, rest), Sub(a, rest);
    && was.Some? && was.value.Composite? && now.Some? && now.value.Composite?
    && ChildByName(was.value.children, m).Some?
    && ChildByName(now.value.children, m).None?
    && ChildByName(now.value.children, n).Some?
  }

  lemma {:induction false} NamedQuiet(plans: seq<Plan<Op>>, path: Path, names: seq<string>, name: string)
    requires Named(plans, path, names) && name !in names
    ensures forall p :: p in plans ==> NoneOf(Ops(p), Below(path + [name]))
    ensures NoneOf(OpsAll(plans), Below(path + [name]))
  {
    forall n | 0 <= n < |plans| ensures NoneOf(Ops(plans[n]), Below(path + [name])) {
      assert names[n] in names;
      ElsewhereNone(Ops(plans[n]), Below(path + [name]), path, name, names[n]);
    }
    NoneOfItems(plans, Below(path + [name]));
  }

  lemma {:induction false} QuietList(plans: seq<Plan<Op>>, x: OpSet, y: OpSet)
    requires (forall p :: p in plans ==> NoneOf(Ops(p), x)) || (forall p :: p in plans ==> NoneOf(Ops(p), y))
    ensures InOrder(Wrap(plans), x, y)
    ensures plans != [] ==> ActInOrder(OneOrGroup(plans), x, y)
  {
    hide NoneOf, FirstThen, Ops;
    WrapAt(plans);
    forall n | 0 <= n < |plans| ensures FirstThen(plans[n], x, y) {
      assert plans[n] in plans;
      QuietInOrder(plans[n], x, y);
    }
    forall m, n | 0 <= m < n < |plans| ensures Apart(Wrap(plans)[m], Wrap(plans)[n], x, y) {
      assert plans[m] in plans && plans[n] in plans;
    }
    GroupInOrder(Wrap(plans), x, y);
  }

  /** Deletions without `y`, and creations and updates without `x`, are in order. */
  lemma {:induction false} SplitLevelInOrder(updates: seq<Plan<Op>>, creates: seq<Plan<Op>>, deletes: seq<Plan<Op>>, x: OpSet, y: OpSet)
    requires forall p :: p in updates + creates ==> NoneOf(Ops(p), x)
    requires forall p :: p in deletes ==> NoneOf(Ops(p), y)
    ensures InOrder(LevelActions(updates, creates, deletes), x, y)
  {
    if Nested(updates, creates, deletes) {
      var makes := creates + updates;
      forall n | 0 <= n < |makes| ensures NoneOf(Ops(makes[n]), x) {
        assert makes[n] in updates + creates;
      }
      QuietList(deletes, x, y);
      QuietList(makes, x, y);
      OpsOfOneOrGroup(makes);
      NoneOfItems(makes, x);
      PairInOrder(OneOrGroup(deletes), OneOrGroup(makes), x, y);
    } else {
      QuietList(updates + creates + deletes, x, y);
    }
  }

  lemma {:induction false} HooksNotBelow(s: Settings, before: Option<Service>, after: Option<Service>, path: Path, p: Path)
    requires path < p
    ensures NoneOf(OpsOf(AfterUpdated(s, before, after, path)), Below(p))
  {
    hide AfterUpdated, AfterDeleted, ServiceActions;
    UpdateHookOps(s, before, after, path);
    HookOps(s, before, path);
    if after.Some? {
      ServiceOps(s, after.value, ProxyOf(before, after.value), path);
    }
  }

  lemma {:induction false} OwnDeletesFirst(s: Settings, b: Deployment, a: Deployment, path: Path, m: string, n: string)
    requires WellNamed(b) && WellNamed(a) && SameKind(b, a) && Replaces(b, a, [], m, n)
    ensures ActInOrder(UpdatePlan(s, b, a, path), Below(path + [m]), Below(path + [n]))
  {
    hide GenerateComposite, LevelActions, FirstThen, NoneOf, AfterUpdated, Named, CreateNew, DeleteOld, UpdateAll, OpsAll;
    var olds, news, x, y := b.children, a.children, Below(path + [m]), Below(path + [n]);
    var updates := UpdateAll(s, olds, news, path);
    var creates := NonNull(CreateNew(s, olds, news, path));
    var deletes := NonNull(DeleteOld(s, olds, news, path));
    var u := UpdateAllNamed(s, olds, news, path);
    var c := CreateNewNamed(s, olds, news, path);
    var d := DeleteOldNamed(s, olds, news, path);
    NamedQuiet(updates, path, u, m);
    NamedQuiet(creates, path, c, m);
    NamedQuiet(deletes, path, d, n);
    SplitLevelInOrder(updates, creates, deletes, x, y);
    HooksNotBelow(s, b.service, a.service, path, path + [m]);
    QuietAct(AfterUpdated(s, b.service, a.service, path), x, y);
    CompositeInOrder(LevelActions(updates, creates, deletes), AfterUpdated(s, b.service, a.service, path), x, y);
  }

  lemma {:induction false} LongerPath(path: Path, rest: Path, m: string)
    requires rest != []
    ensures path + rest + [m] == (path + [rest[0]]) + rest[1..] + [m]
    ensures path + [rest[0]] <= path + rest + [m] && path < path + rest + [m]
  {
    assert path + rest == (path + [rest[0]]) + rest[1..];
  }

  /**
    On every level of an update, what is deleted goes before what is created or updated:
    no action for a new child starts beside or before one for a child that goes away.
  */
  lemma {:induction false} DeletesFirst(s: Settings, b: Deployment, a: Deployment, path: Path, rest: Path, m: string, n: string)
    requires WellNamed(b) && WellNamed(a) && SameKind(b, a) && Replaces(b, a, rest, m, n)
    ensures ActInOrder(UpdatePlan(s, b, a, path), Below(path + rest + [m]), Below(path + rest + [n]))
    decreases |rest|, 0
  {
    if rest == [] {
      assert path + rest == path;
      OwnDeletesFirst(s, b, a, path, m, n);
    } else {
      hide NoneOf, FirstThen, AfterUpdated, Named, Focused, CreateNew, DeleteOld, UpdateAll;
      var olds, news := b.children, a.children;
      var x, y := Below(path + rest + [m]), Below(path + rest + [n]);
      LongerPath(path, rest, m);
      LongerPath(path, rest, n);
      UpdatesDeleteFirst(s, olds, news, path, rest, m, n);
      var u := UpdateAllNamed(s, olds, news, path);
      var c := CreateNewNamed(s, olds, news, path);
      var d := DeleteOldNamed(s, olds, news, path);
      NamedFocused(UpdateAll(s, olds, news, path), path, u, x, y, rest[0]);
      QuietFocused(NonNull(CreateNew(s, olds, news, path)), path, c, x, y, rest[0]);
      QuietFocused(NonNull(DeleteOld(s, olds, news, path)), path, d, x, y, rest[0]);
      HooksNotBelow(s, b.service, a.service, path, path + rest + [m]);
      QuietAct(AfterUpdated(s, b.service, a.service, path), x, y);
      UpdateInOrder(s, b, a, path, u, c, d, x, y, rest[0]);
    }
  }

  lemma {:induction false} QuietFocused(plans: seq<Plan<Op>>, path: Path, names: seq<string>, x: OpSet, y: OpSet, name: string)
    requires Named(plans, path, names) && Confined(x, path, name) && Confined(y, path, name) && name !in names
    ensures Focused(plans, names, x, y, name)
  {
    forall n | 0 <= n < |plans| ensures NoneOf(Ops(plans[n]), x) && NoneOf(Ops(plans[n]), y) {
      assert names[n] in names;
      ElsewhereNone(Ops(plans[n]), x, path, name, names[n]);
      ElsewhereNone(Ops(plans[n]), y, path, name, names[n]);
    }
    forall n | 0 <= n < |plans| ensures FirstThen(plans[n], x, y) {
      QuietInOrder(plans[n], x, y);
    }
  }

  lemma {:induction false} UpdatesDeleteFirst(s: Settings, olds: seq<Deployment>, news: seq<Deployment>, path: Path,
                                              rest: Path, m: string, n: string)
    requires Children(olds) && Children(news) && (forall c :: c in news ==> SameKindAs(olds, c)) && rest != []
    requires ChildByName(olds, rest[0]).Some?
    requires forall c :: c in news && c.name == rest[0] ==>
      Replaces(ChildByName(olds, rest[0]).value, c, rest[1..], m, n)
    ensures forall k :: 0 <= k < |UpdateAll(s, olds, news, path)| ==>
      FirstThen(UpdateAll(s, olds, news, path)[k], Below(path + rest + [m]), Below(path + rest + [n]))
    decreases |rest| - 1, |news| + 1
  {
    if news != [] {
      RestDistinct(news);
      UpdatesDeleteFirst(s, olds, news[1..], path, rest, m, n);
      var name := news[0].name;
      var b := ChildByName(olds, name);
      LongerPath(path, rest, m);
      LongerPath(path, rest, n);
      if b.Some? {
        assert SameKindAs(olds, news[0]);
        if name == rest[0] {
          DeletesFirst(s, b.value, news[0], path + [name], rest[1..], m, n);
        } else {
          var x := Below(path + rest + [m]);
          UpdateWithin(s, b.value, news[0], path + [name]);
          ElsewhereNone(OpsOf(UpdatePlan(s, b.value, news[0], path + [name])), x, path, rest[0], name);
          QuietAct(UpdatePlan(s, b.value, news[0], path + [name]), x, Below(path + rest + [n]));
        }
      }
    }
  }

  // ------------------------------------------------------------------------
  // Each child once
  // ------------------------------------------------------------------------

  /** The actions at or below some place, in their order. */
  function Share(ops: seq<Op>, place: Path): seq<Op> {
    if ops == [] then [] else (if place <= ops[0].path then [ops[0]] else []) + Share(ops[1..], place)
  }

  lemma {:induction false} ShareJoin(a: seq<Op>, b: seq<Op>, place: Path)
    ensures Share(a + b, place) == Share(a, place) + Share(b, place)
    decreases |a|
  {
    if a == [] {
      assert a + b == b;
    } else {
      assert (a + b)[1..] == a[1..] + b;
      ShareJoin(a[1..], b, place);
    }
  }

  lemma {:induction false} ShareWhole(ops: seq<Op>, place: Path)
    requires Within(ops, place)
    ensures Share(ops, place) == ops
    decreases |ops|
  {
    if ops != [] {
      ShareWhole(ops[1..], place);
    }
  }

  lemma {:induction false} ShareNone(ops: seq<Op>, place: Path)
    requires NoneOf(ops, Below(place))
    ensures Share(ops, place) == []
    decreases |ops|
  {
    if ops != [] {
      assert !Below(place)(ops[0]);
      forall n | 0 <= n < |ops[1..]| ensures !Below(place)(ops[1..][n]) {
        assert ops[1..][n] == ops[n + 1];
      }
      ShareNone(ops[1..], place);
    }
  }

  /** The share of one child in its own actions, and in those of another. */
  lemma {:induction false} ShareOfChild(ops: seq<Op>, path: Path, own: string, name: string)
    requires Within(ops, path + [own])
    ensures Share(ops, path + [name]) == if own == name then ops else []
  {
    if own == name {
      ShareWhole(ops, path + [name]);
    } else {
      ElsewhereNone(ops, Below(path + [name]), path, name, own);
      ShareNone(ops, path + [name]);
    }
  }

  /** The actions for the child of some name, if both sides have it. */
  function UpdatedOps(s: Settings, b: Option<Deployment>, a: Option<Deployment>, path: Path): seq<Op> {
    if b.Some? && a.Some? then OpsOf(UpdatePlan(s, b.value, a.value, path)) else []
  }

  /** The actions for a child that only one side has. */
  function CreatedOps(s: Settings, b: Option<Deployment>, a: Option<Deployment>, path: Path): seq<Op> {
    if b.None? && a.Some? then OpsOf(CreatePlan(s, a.value, path)) else []
  }

  function DeletedOps(s: Settings, b: Option<Deployment>, a: Option<Deployment>, path: Path): seq<Op> {
    if b.Some? && a.None? then OpsOf(DeletePlan(s, b.value, path)) else []
  }

  lemma {:induction false} OneOfAll(ds: seq<Deployment>, name: string)
    requires ds != [] && DistinctNames(ds)
    ensures ChildByName(ds, name) == if ds[0].name == name then Some(ds[0]) else ChildByName(ds[1..], name)
    ensures ds[0].name == name ==> ChildByName(ds[1..], name).None?
    ensures DistinctNames(ds[1..])
  {
    RestDistinct(ds);
  }

  lemma {:induction false} UpdateShare(s: Settings, olds: seq<Deployment>, news: seq<Deployment>, path: Path, name: string)
    requires DistinctNames(news)
    ensures Share(OpsAll(UpdateAll(s, olds, news, path)), path + [name]) ==
      UpdatedOps(s, ChildByName(olds, name), ChildByName(news, name), path + [name])
    decreases |news|
  {
    if news != [] {
      hide UpdatePlan;
      var own, b := news[0].name, ChildByName(olds, news[0].name);
      var first := if b.None? then [] else OpsOf(UpdatePlan(s, b.value, news[0], path + [own]));
      OneOfAll(news, name);
      UpdateShare(s, olds, news[1..], path, name);
      UpdateAllFirst(s, olds, news, path);
      if b.Some? {
        UpdateWithin(s, b.value, news[0], path + [own]);
      }
      ShareOfChild(first, path, own, name);
      ShareJoin(first, OpsAll(UpdateAll(s, olds, news[1..], path)), path + [name]);
    }
  }

  lemma {:induction false} CreateShare(s: Settings, olds: seq<Deployment>, news: seq<Deployment>, path: Path, name: string)
    requires DistinctNames(news)
    ensures Share(OpsAll(NonNull(CreateNew(s, olds, news, path))), path + [name]) ==
      CreatedOps(s, ChildByName(olds, name), ChildByName(news, name), path + [name])
    decreases |news|
  {
    FlatNonNull(CreateNew(s, olds, news, path));
    if news != [] {
      hide CreatePlan;
      var own := news[0].name;
      var first := if ChildByName(olds, own).Some? then None else CreatePlan(s, news[0], path + [own]);
      OneOfAll(news, name);
      CreateShare(s, olds, news[1..], path, name);
      FlatNonNull(CreateNew(s, olds, news[1..], path));
      CreateWithin(s, news[0], path + [own]);
      ShareOfChild(OpsOf(first), path, own, name);
      ShareJoin(OpsOf(first), Flat(CreateNew(s, olds, news[1..], path)), path + [name]);
    }
  }

  lemma {:induction false} DeleteShare(s: Settings, olds: seq<Deployment>, news: seq<Deployment>, path: Path, name: string)
    requires DistinctNames(olds)
    ensures Share(OpsAll(NonNull(DeleteOld(s, olds, news, path))), path + [name]) ==
      DeletedOps(s, ChildByName(olds, name), ChildByName(news, name), path + [name])
    decreases |olds|
  {
    FlatNonNull(DeleteOld(s, olds, news, path));
    if olds != [] {
      hide DeletePlan;
      var own := olds[0].name;
      var first := if ChildByName(news, own).Some? then None else DeletePlan(s, olds[0], path + [own]);
      OneOfAll(olds, name);
      DeleteShare(s, olds[1..], news, path, name);
      FlatNonNull(DeleteOld(s, olds[1..], news, path));
      DeleteWithin(s, olds[0], path + [own]);
      ShareOfChild(OpsOf(first), path, own, name);
      ShareJoin(OpsOf(first), Flat(DeleteOld(s, olds[1..], news, path)), path + [name]);
    }
  }

  lemma {:induction false} LevelShare(s: Settings, olds: seq<Deployment>, news: seq<Deployment>, path: Path, place: Path)
    ensures
      var u := Share(OpsAll(UpdateAll(s, olds, news, path)), place);
      var c := Share(OpsAll(NonNull(CreateNew(s, olds, news, path))), place);
      var d := Share(OpsAll(NonNull(DeleteOld(s, olds, news, path))), place);
      Share(LevelOps(s, olds, news, path), place) == u + c + d || Share(LevelOps(s, olds, news, path), place) == d + c + u
  {
    hide Share, NonNull, OpsAll;
    var updates := OpsAll(UpdateAll(s, olds, news, path));
    var creates := OpsAll(NonNull(CreateNew(s, olds, news, path)));
    var deletes := OpsAll(NonNull(DeleteOld(s, olds, news, path)));
    ShareJoin(creates, updates, place);
    ShareJoin(deletes, creates + updates, place);
    ShareJoin(updates, creates, place);
    ShareJoin(updates + creates, deletes, place);
    assert Share(deletes, place) + (Share(creates, place) + Share(updates, place))
        == Share(deletes, place) + Share(creates, place) + Share(updates, place);
  }

  lemma {:induction false} WellNamedChildren(d: Deployment)
    requires d.Composite? && WellNamed(d)
    ensures DistinctNames(d.children)
  {
  }

  /**
    Of an update's actions, those at or below a child are exactly those that update it, create it
    or delete it, each once: the first if both sides have it, else as only the new or the old has it.
  */
  lemma {:induction false} EachChildOnce(s: Settings, b: Deployment, a: Deployment, path: Path, name: string)
    requires b.Composite? && a.Composite? && WellNamed(b) && WellNamed(a)
    ensures Share(OpsOf(UpdatePlan(s, b, a, path)), path + [name]) ==
      match (ChildByName(b.children, name), ChildByName(a.children, name)) {
        case (Some(was), Some(now)) => OpsOf(UpdatePlan(s, was, now, path + [name]))
        case (None, Some(now)) => OpsOf(CreatePlan(s, now, path + [name]))
        case (Some(was), None) => OpsOf(DeletePlan(s, was, path + [name]))
        case (None, None) => []
      }
  {
    hide UpdatePlan, CreatePlan, DeletePlan, GenerateComposite, LevelActions, AfterUpdated, Share, LevelOps, OpsOf, WellNamed, UpdateAll;
    var place := path + [name];
    WellNamedChildren(b);
    WellNamedChildren(a);
    UpdateOps(s, b, a, path);
    HooksNotBelow(s, b.service, a.service, path, place);
    ShareNone(OpsOf(AfterUpdated(s, b.service, a.service, path)), place);
    ShareJoin(LevelOps(s, b.children, a.children, path), OpsOf(AfterUpdated(s, b.service, a.service, path)), place);
    UpdateShare(s, b.children, a.children, path, name);
    CreateShare(s, b.children, a.children, path, name);
    DeleteShare(s, b.children, a.children, path, name);
    LevelShare(s, b.children, a.children, path, place);
  }

  // ------------------------------------------------------------------------
  // Main results over runs
  // ------------------------------------------------------------------------

  /** In any run of an update, all that is removed at a place is gone before anything is made there. */
  lemma {:induction false} OldEndsBeforeNew(s: Settings, b: Deployment, a: Deployment, g: Graph, run: seq<System>,
                                            n: nat, k: nat, place: Path, i: Id)
    requires WellNamed(b) && WellNamed(a) && SameKind(b, a) && UpdatePlan(s, b, a, []).Some?
    requires Realizes(g, UpdatePlan(s, b, a, []).value) && WellFormed(g) && IsRun(g, run)
    requires n < |run| && k < |run[n].log| && run[n].log[k].Started?
    requires InSet(OpAt(UpdatePlan(s, b, a, []).value, 0, i), RemovalsAt(place))
    requires InSet(OpAt(UpdatePlan(s, b, a, []).value, 0, run[n].log[k].id), MakingsAt(place))
    ensures Ended(i, true) in run[n].log[..k]
  {
    UpdateSound(s, b, a, []);
    RemovalsFirst(s, b, a, [], place);
    StartsAfter(g, UpdatePlan(s, b, a, []).value, run, n, k, RemovalsAt(place), MakingsAt(place), i);
  }

  /** In any run of an update, a child that goes away is gone before work on a new or kept sibling starts. */
  lemma {:induction false} DeletionsEndFirst(s: Settings, b: Deployment, a: Deployment, g: Graph, run: seq<System>,
                                             n: nat, k: nat, level: Path, gone: string, kept: string, i: Id)
    requires WellNamed(b) && WellNamed(a) && SameKind(b, a) && UpdatePlan(s, b, a, []).Some?
    requires Realizes(g, UpdatePlan(s, b, a, []).value) && WellFormed(g) && IsRun(g, run)
    requires n < |run| && k < |run[n].log| && run[n].log[k].Started?
    requires Replaces(b, a, level, gone, kept)
    requires InSet(OpAt(UpdatePlan(s, b, a, []).value, 0, i), Below(level + [gone]))
    requires InSet(OpAt(UpdatePlan(s, b, a, []).value, 0, run[n].log[k].id), Below(level + [kept]))
    ensures Ended(i, true) in run[n].log[..k]
  {
    UpdateSound(s, b, a, []);
    DeletesFirst(s, b, a, [], level, gone, kept);
    assert [] + level == level;
    StartsAfter(g, UpdatePlan(s, b, a, []).value, run, n, k, Below(level + [gone]), Below(level + [kept]), i);
  }
}
