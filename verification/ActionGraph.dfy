/**
  The action graph that the deployment engine schedules, as a value.

  Actions are numbered so that an action comes after the members of its group
  and after everything it depends on. `ActionTree` builds such a numbering for
  every plan the combinators can make; `ActionHeap` ties it to the objects.
*/
module ActionGraph {

  datatype Status = Pending | Running | Successful | Failed | NotRun

  type Id = nat

  type Statuses = seq<Status>

  /**
    One action. `kids` are the members of a group, `depends` and `requiredBy` the
    two ends of the static dependencies, `computed` the further dependencies
    that an overridden `getDependencies` returns.
  */
  datatype Node = Node(
    isGroup: bool,
    kids: seq<Id>,
    depends: seq<Id>,
    requiredBy: seq<Id>,
    computed: seq<Id>)

  /** The actions, and for each the group that holds it. */
  datatype Graph = Graph(nodes: seq<Node>, up: seq<Id>)

  function Size(g: Graph): nat {
    |g.nodes|
  }

  ghost predicate NodeOk(g: Graph, i: Id)
    requires i < Size(g) == |g.up|
  {
    var nd := g.nodes[i];
    && (!nd.isGroup ==> nd.kids == [])
    && (nd.isGroup ==> nd.computed == [])
    && (forall k :: k in nd.kids ==> k < i && g.up[k] == i)
    && (forall a, b :: 0 <= a < b < |nd.kids| ==> nd.kids[a] < nd.kids[b])
    && (forall d :: d in nd.depends ==> d < i && g.up[d] == g.up[i] && i in g.nodes[d].requiredBy)
    && (forall r :: r in nd.requiredBy ==> i < r < Size(g) && g.up[r] == g.up[i] && i in g.nodes[r].depends)
    && (forall c :: c in nd.computed ==> c < Size(g) && !g.nodes[c].isGroup)
    && i < g.up[i] <= Size(g)
    && (g.up[i] < Size(g) ==> i in g.nodes[g.up[i]].kids)
    && (g.up[i] == Size(g) <==> i == Size(g) - 1)
  }

  ghost predicate WellFormed(g: Graph) {
    && 0 < Size(g) == |g.up|
    && (forall i :: 0 <= i < Size(g) ==> NodeOk(g, i))
  }

  ghost predicate Fits(g: Graph, st: Statuses) {
    WellFormed(g) && |st| == Size(g)
  }

  function Root(g: Graph): Id
    requires 0 < Size(g)
  {
    Size(g) - 1
  }

  predicate Bad(s: Status) {
    s == Failed || s == NotRun
  }

  predicate Done(s: Status) {
    s == Successful || Bad(s)
  }

  /** Everything an action waits for, in the order it is looked at. */
  function Dependencies(nd: Node): seq<Id> {
    nd.computed + nd.depends
  }

  /** Member number `a` of a group. */
  function Kid(g: Graph, i: Id, a: nat): (k: Id)
    requires WellFormed(g) && i < Size(g) && a < |g.nodes[i].kids|
    ensures k < i && k in g.nodes[i].kids && g.up[k] == i
  {
    assert NodeOk(g, i);
    g.nodes[i].kids[a]
  }

  /** Dependency number `n` of an action. */
  function Dep(g: Graph, i: Id, n: nat): (d: Id)
    requires WellFormed(g) && i < Size(g) && n < |Dependencies(g.nodes[i])|
    ensures d < Size(g) && d in Dependencies(g.nodes[i])
  {
    assert NodeOk(g, i) && Dependencies(g.nodes[i])[n] in Dependencies(g.nodes[i]);
    Dependencies(g.nodes[i])[n]
  }

  // ------------------------------------------------------------------------
  // What the methods of Action, ActionGroup and SingleAction do to the statuses
  // ------------------------------------------------------------------------

  /** `Action.setStatus`: a failure is passed on to everything that depends on the action. */
  function SetStatus(g: Graph, st: Statuses, i: Id, s: Status): (r: Statuses)
    requires Fits(g, st) && i < Size(g)
    ensures |r| == |st|
    decreases Size(g) - i, 1, 0
  {
    assert NodeOk(g, i);
    var st1 := st[i := s];
    if Bad(s) then NotRunAll(g, st1, i, g.nodes[i].requiredBy) else st1
  }

  function NotRunAll(g: Graph, st: Statuses, i: Id, rs: seq<Id>): (r: Statuses)
    requires Fits(g, st) && i < Size(g) && forall r :: r in rs ==> i < r < Size(g)
    ensures |r| == |st|
    decreases Size(g) - i, 0, |rs|
  {
    if rs == [] then
      st
    else
      assert rs[0] in rs && forall r :: r in rs[1..] ==> r in rs;
      NotRunAll(g, SetStatus(g, st, rs[0], NotRun), i, rs[1..])
  }

  datatype Reading = Reading(st: Statuses, status: Status)

  /** What the loop of `ActionGroup.getStatus` has seen so far. */
  datatype Summary = Summary(hasFailed: bool, hasFinished: bool, hasNotFinished: bool)

  function Seen(m: Summary, s: Status): Summary {
    match s
    case Pending => m.(hasNotFinished := true)
    case Running => m
    case Successful => m.(hasFinished := true)
    case Failed => m.(hasFinished := true, hasFailed := true)
    case NotRun => m.(hasFinished := true, hasFailed := true)
  }

  const NothingSeen := Summary(false, false, false)

  function Outcome(m: Summary): Status {
    if m.hasNotFinished then Pending else if m.hasFailed then Failed else Successful
  }

  /** `getStatus`: a single action answers with its field, a group recomputes it. */
  function GetStatus(g: Graph, st: Statuses, i: Id): (r: Reading)
    requires Fits(g, st) && i < Size(g)
    ensures |r.st| == |st|
    decreases i, 1, 0
  {
    if !g.nodes[i].isGroup || st[i] == NotRun then
      Reading(st, st[i])
    else
      Scan(g, st, i, 0, st[i], NothingSeen)
  }

  /** The loop of `ActionGroup.getStatus` from member number `pos` on. */
  function Scan(g: Graph, st: Statuses, i: Id, pos: nat, was: Status, m: Summary): (r: Reading)
    requires Fits(g, st) && i < Size(g) && pos <= |g.nodes[i].kids|
    ensures |r.st| == |st|
    decreases i, 0, |g.nodes[i].kids| - pos
  {
    if pos == |g.nodes[i].kids| then
      Reading(SetStatus(g, st, i, Outcome(m)), Outcome(m))
    else
      var kid := GetStatus(g, st, Kid(g, i, pos));
      var m' := Seen(m, kid.status);
      if m'.hasFinished && m'.hasNotFinished && was == Running then
        Reading(kid.st, was)
      else if kid.status == Running then
        Reading(SetStatus(g, kid.st, i, Running), Running)
      else
        Scan(g, kid.st, i, pos + 1, was, m')
  }

  datatype Readiness = Readiness(st: Statuses, ready: bool)

  /** The test for FAILED and then, by a second call, for NOT_RUN. */
  function ReadBad(g: Graph, st: Statuses, d: Id): (r: Readiness)
    requires Fits(g, st) && d < Size(g)
    ensures |r.st| == |st|
  {
    var one := GetStatus(g, st, d);
    if one.status == Failed then
      Readiness(one.st, true)
    else
      var two := GetStatus(g, one.st, d);
      Readiness(two.st, two.status == NotRun)
  }

  /** One turn of the loop of `isReady`. */
  function CheckOne(g: Graph, st: Statuses, i: Id, d: Id): (r: Reading)
    requires Fits(g, st) && i < Size(g) && d < Size(g)
    ensures |r.st| == |st|
  {
    var bad := ReadBad(g, st, d);
    GetStatus(g, if bad.ready then SetStatus(g, bad.st, i, NotRun) else bad.st, d)
  }

  /** The loop of `Action.isReady` from dependency number `pos` on. */
  function CheckAll(g: Graph, st: Statuses, i: Id, pos: nat, ok: bool): (r: Readiness)
    requires Fits(g, st) && i < Size(g) && pos <= |Dependencies(g.nodes[i])|
    ensures |r.st| == |st|
    decreases |Dependencies(g.nodes[i])| - pos
  {
    if pos == |Dependencies(g.nodes[i])| then
      Readiness(st, ok)
    else
      var one := CheckOne(g, st, i, Dep(g, i, pos));
      CheckAll(g, one.st, i, pos + 1, ok && one.status == Successful)
  }

  /** `Action.isReady`. */
  function IsReady(g: Graph, st: Statuses, i: Id): (r: Readiness)
    requires Fits(g, st) && i < Size(g)
    ensures |r.st| == |st|
  {
    var own := GetStatus(g, st, i);
    if own.status != Pending then
      Readiness(own.st, false)
    else
      CheckAll(g, own.st, i, 0, true)
  }

  datatype Option<+T> = None | Some(value: T)

  datatype Choice = Choice(st: Statuses, picked: Option<Id>)

  /** `getAvailableAction`. */
  function GetAvailable(g: Graph, st: Statuses, i: Id): (r: Choice)
    requires Fits(g, st) && i < Size(g)
    ensures |r.st| == |st|
    ensures r.picked.Some? ==> r.picked.value < Size(g)
    decreases i, 1, 0
  {
    var own := IsReady(g, st, i);
    if !g.nodes[i].isGroup then
      Choice(own.st, if own.ready then Some(i) else None)
    else if own.ready then
      FirstAvailable(g, own.st, i, 0)
    else
      var again := GetStatus(g, own.st, i);
      if again.status != Running then Choice(again.st, None)
      else FirstAvailable(g, again.st, i, 0)
  }

  /** The loop of `ActionGroup.getAvailableAction` from member number `pos` on. */
  function FirstAvailable(g: Graph, st: Statuses, i: Id, pos: nat): (r: Choice)
    requires Fits(g, st) && i < Size(g) && pos <= |g.nodes[i].kids|
    ensures |r.st| == |st|
    ensures r.picked.Some? ==> r.picked.value < Size(g)
    decreases i, 0, |g.nodes[i].kids| - pos
  {
    if pos == |g.nodes[i].kids| then
      Choice(st, None)
    else
      var c := GetAvailable(g, st, Kid(g, i, pos));
      if c.picked.Some? then c else FirstAvailable(g, c.st, i, pos + 1)
  }

  /** `Action.isDone`: FAILED is asked for first, SUCCESSFUL by a second call. */
  function IsDone(g: Graph, st: Statuses, i: Id): (r: Readiness)
    requires Fits(g, st) && i < Size(g)
    ensures |r.st| == |st|
  {
    var one := GetStatus(g, st, i);
    if one.status == Failed then
      Readiness(one.st, true)
    else
      var two := GetStatus(g, one.st, i);
      Readiness(two.st, two.status == Successful)
  }

  /** The single actions of `Action.stream`, at or below an action, from left to right. */
  function SinglesOf(g: Graph, i: Id): seq<Id>
    requires WellFormed(g) && i < Size(g)
    decreases i, 1, 0
  {
    if g.nodes[i].isGroup then SinglesFrom(g, i, 0) else [i]
  }

  /** Those below the members from number `pos` on. */
  function SinglesFrom(g: Graph, i: Id, pos: nat): seq<Id>
    requires WellFormed(g) && i < Size(g) && pos <= |g.nodes[i].kids|
    decreases i, 0, |g.nodes[i].kids| - pos
  {
    if pos == |g.nodes[i].kids| then [] else SinglesOf(g, Kid(g, i, pos)) + SinglesFrom(g, i, pos + 1)
  }
}
