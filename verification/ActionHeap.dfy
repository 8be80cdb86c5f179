/**
  The actions as objects that update their fields, and the executor's loop.

  `Action` stands for the abstract class together with its two subclasses:
  `isGroup` tells an ActionGroup from a SingleAction. The ghost parameters `g`,
  `nodes` and `i` name the graph that the objects form and the place of `this`
  in it; each method is proved to do to the stored statuses what the function
  of the same name in `ActionGraph` does.
*/
module ActionHeap {
  import opened ActionGraph
  import opened ActionInvariant
  import opened ActionReading
  import opened ActionRuns
  import opened ActionProgress

  class Action {
    const isGroup: bool
    var status: Status
    var actions: seq<Action>
    var depends: seq<Action>
    var requiredBy: seq<Action>
    var computed: seq<Action>
    ghost var place: Id

    constructor (isGroup: bool)
      ensures this.isGroup == isGroup && status == Pending
      ensures actions == [] && depends == [] && requiredBy == [] && computed == []
    {
      this.isGroup := isGroup;
      status := Pending;
      actions, depends, requiredBy, computed := [], [], [], [];
    }

    /** `setStatus` */
    method SetStatus(s: Status, ghost g: Graph, ghost nodes: seq<Action>, ghost i: Id)
      requires Represents(g, nodes) && i < |nodes| && nodes[i] == this
      modifies nodes`status
      ensures Stored(nodes) == ActionGraph.SetStatus(g, old(Stored(nodes)), i, s)
      decreases Size(g) - i
    {
      hide NodeOk, Shape, ActionGraph.SetStatus, NotRunAll;
      ghost var rs := g.nodes[i].requiredBy;
      DependentsAre(g, nodes, i);
      SetStatusIs(g, Stored(nodes), i, s);
      status := s;
      ghost var st1 := Stored(nodes);
      assert st1 == old(Stored(nodes))[i := s];
      if s == Failed || s == NotRun {
        var n := 0;
        assert rs[0..] == rs;
        while n < |requiredBy|
          invariant 0 <= n <= |requiredBy| == |rs|
          invariant forall r :: r in rs[n..] ==> r in rs
          invariant NotRunAll(g, Stored(nodes), i, rs[n..]) == NotRunAll(g, st1, i, rs)
        {
          NotRunAllNext(g, Stored(nodes), i, rs, n, n + 1);
          requiredBy[n].SetStatus(NotRun, g, nodes, rs[n]);
          n := n + 1;
        }
        NotRunAllEnd(g, Stored(nodes), i, rs);
      }
    }

    /** `getStatus`, with the loop of ActionGroup */
    method GetStatus(ghost g: Graph, ghost nodes: seq<Action>, ghost i: Id) returns (s: Status)
      requires Represents(g, nodes) && i < |nodes| && nodes[i] == this
      modifies nodes`status
      ensures Reading(Stored(nodes), s) == ActionGraph.GetStatus(g, old(Stored(nodes)), i)
      decreases i
    {
      hide NodeOk, Shape, ActionGraph.SetStatus, ActionGraph.GetStatus, Scan, Seen;
      ghost var st0 := Stored(nodes);
      StoredFits(g, nodes);
      GetStatusIs(g, nodes, i);
      var oldStatus := status;
      if !isGroup || oldStatus == NotRun {
        return oldStatus;
      }
      var hasFailed, hasFinished, hasNotFinished := false, false, false;
      var n := 0;
      while n < |actions|
        invariant 0 <= n <= |actions| == |g.nodes[i].kids|
        invariant |Stored(nodes)| == Size(g)
        invariant Scan(g, Stored(nodes), i, n, oldStatus, Summary(hasFailed, hasFinished, hasNotFinished))
               == ActionGraph.GetStatus(g, st0, i)
      {
        ghost var m := Summary(hasFailed, hasFinished, hasNotFinished);
        ScanNext(g, Stored(nodes), i, n, oldStatus, m);
        MemberAt(g, nodes, i, n);
        var hasRunning := false;
        var kid := actions[n].GetStatus(g, nodes, Kid(g, i, n));
        StoredFits(g, nodes);
        SeenIs(m, kid);
        match kid {
          case Pending => hasNotFinished := true;
          case Running => hasRunning := true;
          case Successful => hasFinished := true;
          case Failed => hasFinished := true; hasFailed := true;
          case NotRun => hasFinished := true; hasFailed := true;
        }
        if hasFinished && hasNotFinished && oldStatus == Running {
          return oldStatus;
        }
        if hasRunning {
          SetStatus(Running, g, nodes, i);
          return Running;
        }
        n := n + 1;
      }
      ScanEnd(g, Stored(nodes), i, oldStatus, Summary(hasFailed, hasFinished, hasNotFinished));
      if hasNotFinished {
        SetStatus(Pending, g, nodes, i);
        return Pending;
      }
      if hasFailed {
        SetStatus(Failed, g, nodes, i);
        return Failed;
      } else {
        SetStatus(Successful, g, nodes, i);
        return Successful;
      }
    }

    /** `isDone` */
    method IsDone(ghost g: Graph, ghost nodes: seq<Action>, ghost i: Id) returns (done: bool)
      requires Represents(g, nodes) && i < |nodes| && nodes[i] == this
      modifies nodes`status
      ensures Readiness(Stored(nodes), done) == ActionGraph.IsDone(g, old(Stored(nodes)), i)
    {
      var one := GetStatus(g, nodes, i);
      if one == Failed {
        return true;
      }
      var two := GetStatus(g, nodes, i);
      return two == Successful;
    }

    /** `getDependencies`: what an override computed, and then the static ones. */
    method GetDependencies(ghost g: Graph, ghost nodes: seq<Action>, ghost i: Id) returns (ds: seq<Action>)
      requires Represents(g, nodes) && i < |nodes| && nodes[i] == this
      ensures Refs(nodes, ds, Dependencies(g.nodes[i]))
    {
      assert Shape(g, nodes, i);
      return computed + depends;
    }

    /** The condition of `isReady` that asks twice. */
    method FailedOrNotRun(ghost g: Graph, ghost nodes: seq<Action>, ghost i: Id) returns (bad: bool)
      requires Represents(g, nodes) && i < |nodes| && nodes[i] == this
      modifies nodes`status
      ensures Readiness(Stored(nodes), bad) == ReadBad(g, old(Stored(nodes)), i)
    {
      var one := GetStatus(g, nodes, i);
      if one == Failed {
        return true;
      }
      var two := GetStatus(g, nodes, i);
      return two == NotRun;
    }

    /** The body of the loop of `isReady`, which ends by asking the dependency once more. */
    method CheckOne(action: Action, ghost g: Graph, ghost nodes: seq<Action>, ghost i: Id, ghost d: Id)
      returns (s: Status)
      requires Represents(g, nodes) && i < |nodes| && nodes[i] == this && d < |nodes| && nodes[d] == action
      modifies nodes`status
      ensures Reading(Stored(nodes), s) == ActionGraph.CheckOne(g, old(Stored(nodes)), i, d)
    {
      var bad := action.FailedOrNotRun(g, nodes, d);
      if bad {
        SetStatus(NotRun, g, nodes, i);
      }
      s := action.GetStatus(g, nodes, d);
    }

    /** `isReady` */
    method IsReady(ghost g: Graph, ghost nodes: seq<Action>, ghost i: Id) returns (ready: bool)
      requires Represents(g, nodes) && i < |nodes| && nodes[i] == this
      modifies nodes`status
      ensures Readiness(Stored(nodes), ready) == ActionGraph.IsReady(g, old(Stored(nodes)), i)
    {
      hide ActionGraph.CheckOne, ActionGraph.GetStatus, NodeOk;
      var own := GetStatus(g, nodes, i);
      if own != Pending {
        return false;
      }
      ready := true;
      var waitsFor := GetDependencies(g, nodes, i);
      ghost var ds := Dependencies(g.nodes[i]);
      ghost var st1 := Stored(nodes);
      var n := 0;
      while n < |waitsFor|
        invariant 0 <= n <= |waitsFor| == |ds|
        invariant CheckAll(g, Stored(nodes), i, n, ready) == CheckAll(g, st1, i, 0, true)
      {
        ghost var d := Dep(g, i, n);
        var now := CheckOne(waitsFor[n], g, nodes, i, d);
        if now != Successful {
          ready := false;
        }
        n := n + 1;
      }
    }

    /** `getAvailableAction` */
    method GetAvailableAction(ghost g: Graph, ghost nodes: seq<Action>, ghost i: Id)
      returns (a: Action?, ghost picked: Option<Id>)
      requires Represents(g, nodes) && i < |nodes| && nodes[i] == this
      modifies nodes`status
      ensures Choice(Stored(nodes), picked) == GetAvailable(g, old(Stored(nodes)), i)
      ensures a == null <==> picked.None?
      ensures picked.Some? ==> picked.value < |nodes| && a == nodes[picked.value]
      decreases i
    {
      hide ActionGraph.IsReady, ActionGraph.GetStatus, NodeOk, FirstAvailable, GetAvailable;
      assert Shape(g, nodes, i);
      ghost var st0 := Stored(nodes);
      AvailableIs(g, st0, i);
      var ready := IsReady(g, nodes, i);
      if !isGroup {
        if ready {
          return this, Some(i);
        }
        return null, None;
      }
      if !ready {
        var own := GetStatus(g, nodes, i);
        if own != Running {
          return null, None;
        }
      }
      var n := 0;
      while n < |actions|
        invariant 0 <= n <= |actions| == |g.nodes[i].kids|
        invariant FirstAvailable(g, Stored(nodes), i, n) == GetAvailable(g, st0, i)
      {
        FirstIs(g, Stored(nodes), i, n);
        a, picked := actions[n].GetAvailableAction(g, nodes, Kid(g, i, n));
        if a != null {
          return a, picked;
        }
        n := n + 1;
      }
      FirstIs(g, Stored(nodes), i, n);
      return null, None;
    }

    /** `stream`, of the single actions */
    method Singles(ghost g: Graph, ghost nodes: seq<Action>, ghost i: Id) returns (singles: seq<Action>)
      requires Represents(g, nodes) && i < |nodes| && nodes[i] == this
      ensures Refs(nodes, singles, SinglesOf(g, i))
      decreases i
    {
      hide NodeOk, Refs, SinglesOf, SinglesFrom;
      assert Shape(g, nodes, i);
      SinglesAre(g, nodes, i);
      if !isGroup {
        return [this];
      }
      singles := [];
      ghost var ids: seq<Id> := [];
      var n := 0;
      while n < |actions|
        invariant 0 <= n <= |actions| == |g.nodes[i].kids|
        invariant Refs(nodes, singles, ids) && ids + SinglesFrom(g, i, n) == SinglesOf(g, i)
      {
        ghost var k := Kid(g, i, n);
        assert nodes[k] == actions[n] by { MemberAt(g, nodes, i, n); }
        var more := actions[n].Singles(g, nodes, k);
        SinglesNext(g, i, n, ids);
        RefsJoin(nodes, singles, ids, more, SinglesOf(g, k));
        singles := singles + more;
        ids := ids + SinglesOf(g, k);
        n := n + 1;
      }
      SinglesEnd(g, i, ids);
    }

    /** `apply`, for a callable that succeeds or throws; `illegal` stands for the IllegalStateException. */
    method Apply(ok: bool, ghost g: Graph, ghost nodes: seq<Action>, ghost i: Id) returns (illegal: bool)
      requires Represents(g, nodes) && i < |nodes| && nodes[i] == this
      requires !isGroup
      modifies nodes`status
      ensures illegal == (old(status) != Running)
      ensures Stored(nodes) ==
        if illegal then old(Stored(nodes))
        else ActionGraph.SetStatus(g, old(Stored(nodes)), i, if ok then Successful else Failed)
    {
      assert Shape(g, nodes, i);
      var own := GetStatus(g, nodes, i);
      if own == Running {
        if ok {
          SetStatus(Successful, g, nodes, i);
        } else {
          SetStatus(Failed, g, nodes, i);
        }
        return false;
      } else {
        return true;
      }
    }
  }

  // ------------------------------------------------------------------------
  // The graph that the objects form
  // ------------------------------------------------------------------------

  lemma {:induction false} AvailableIs(g: Graph, st: Statuses, i: Id)
    requires Fits(g, st) && i < Size(g)
    ensures var own := IsReady(g, st, i);
            GetAvailable(g, st, i) ==
            if !g.nodes[i].isGroup then Choice(own.st, if own.ready then Some(i) else None)
            else if own.ready then FirstAvailable(g, own.st, i, 0)
            else
              var again := GetStatus(g, own.st, i);
              if again.status != Running then Choice(again.st, None) else FirstAvailable(g, again.st, i, 0)
  {
    hide IsReady, GetStatus, FirstAvailable;
  }

  lemma {:induction false} FirstIs(g: Graph, st: Statuses, i: Id, n: nat)
    requires Fits(g, st) && i < Size(g) && n <= |g.nodes[i].kids|
    ensures FirstAvailable(g, st, i, n) ==
            if n == |g.nodes[i].kids| then Choice(st, None)
            else
              var c := GetAvailable(g, st, Kid(g, i, n));
              if c.picked.Some? then c else FirstAvailable(g, c.st, i, n + 1)
  {
    hide GetAvailable;
  }

  ghost predicate Refs(nodes: seq<Action>, objects: seq<Action>, ids: seq<Id>) {
    && |objects| == |ids|
    && forall n :: 0 <= n < |ids| ==> ids[n] < |nodes| && objects[n] == nodes[ids[n]]
  }

  ghost predicate Shape(g: Graph, nodes: seq<Action>, i: Id)
    requires i < |nodes| == Size(g)
    reads nodes`actions, nodes`depends, nodes`requiredBy, nodes`computed
  {
    && nodes[i].isGroup == g.nodes[i].isGroup
    && Refs(nodes, nodes[i].actions, g.nodes[i].kids)
    && Refs(nodes, nodes[i].depends, g.nodes[i].depends)
    && Refs(nodes, nodes[i].requiredBy, g.nodes[i].requiredBy)
    && Refs(nodes, nodes[i].computed, g.nodes[i].computed)
  }

  ghost predicate Represents(g: Graph, nodes: seq<Action>)
    reads nodes`place, nodes`actions, nodes`depends, nodes`requiredBy, nodes`computed
  {
    && WellFormed(g)
    && |nodes| == Size(g)
    && (forall i :: 0 <= i < |nodes| ==> nodes[i].place == i)
    && (forall i :: 0 <= i < |nodes| ==> Shape(g, nodes, i))
  }

  ghost function Stored(nodes: seq<Action>): (st: Statuses)
    reads nodes
    ensures |st| == |nodes| && forall i :: 0 <= i < |nodes| ==> st[i] == nodes[i].status
  {
    seq(|nodes|, i requires 0 <= i < |nodes| reads nodes => nodes[i].status)
  }

  lemma {:induction false} SinglesAre(g: Graph, nodes: seq<Action>, i: Id)
    requires Represents(g, nodes) && i < |nodes|
    ensures !g.nodes[i].isGroup ==> Refs(nodes, [nodes[i]], SinglesOf(g, i))
    ensures g.nodes[i].isGroup ==> [] + SinglesFrom(g, i, 0) == SinglesOf(g, i)
    ensures Refs(nodes, [], []) && |nodes[i].actions| == |g.nodes[i].kids|
  {
    assert Shape(g, nodes, i);
  }

  lemma {:induction false} MemberAt(g: Graph, nodes: seq<Action>, i: Id, n: nat)
    requires Represents(g, nodes) && i < |nodes| && n < |g.nodes[i].kids|
    ensures n < |nodes[i].actions| && nodes[Kid(g, i, n)] == nodes[i].actions[n]
  {
    assert Shape(g, nodes, i);
  }

  lemma {:induction false} SinglesNext(g: Graph, i: Id, n: nat, ids: seq<Id>)
    requires WellFormed(g) && i < Size(g) && n < |g.nodes[i].kids|
    ensures (ids + SinglesOf(g, Kid(g, i, n))) + SinglesFrom(g, i, n + 1) == ids + SinglesFrom(g, i, n)
  {
  }

  lemma {:induction false} SinglesEnd(g: Graph, i: Id, ids: seq<Id>)
    requires WellFormed(g) && i < Size(g)
    ensures ids + SinglesFrom(g, i, |g.nodes[i].kids|) == ids
  {
  }

  lemma {:induction false} RefsJoin(nodes: seq<Action>, a: seq<Action>, x: seq<Id>, b: seq<Action>, y: seq<Id>)
    requires Refs(nodes, a, x) && Refs(nodes, b, y)
    ensures Refs(nodes, a + b, x + y)
  {
  }

  // ------------------------------------------------------------------------
  // The functions of the methods, one step at a time
  // ------------------------------------------------------------------------

  lemma {:induction false} StoredFits(g: Graph, nodes: seq<Action>)
    requires Represents(g, nodes)
    ensures Fits(g, Stored(nodes)) && |nodes| == Size(g)
  {
  }

  lemma {:induction false} DependentsAre(g: Graph, nodes: seq<Action>, i: Id)
    requires Represents(g, nodes) && i < |nodes|
    ensures |nodes[i].requiredBy| == |g.nodes[i].requiredBy|
    ensures forall n :: 0 <= n < |g.nodes[i].requiredBy| ==>
      i < g.nodes[i].requiredBy[n] < |nodes| && nodes[i].requiredBy[n] == nodes[g.nodes[i].requiredBy[n]]
    ensures forall r :: r in g.nodes[i].requiredBy ==> i < r < Size(g)
  {
    assert Shape(g, nodes, i) && NodeOk(g, i);
    forall n | 0 <= n < |g.nodes[i].requiredBy| ensures i < g.nodes[i].requiredBy[n] {
      assert g.nodes[i].requiredBy[n] in g.nodes[i].requiredBy;
    }
  }

  lemma {:induction false} SetStatusIs(g: Graph, st: Statuses, i: Id, s: Status)
    requires Fits(g, st) && i < Size(g)
    ensures forall r :: r in g.nodes[i].requiredBy ==> i < r < Size(g)
    ensures ActionGraph.SetStatus(g, st, i, s) ==
      if s == Failed || s == NotRun then NotRunAll(g, st[i := s], i, g.nodes[i].requiredBy) else st[i := s]
  {
    assert NodeOk(g, i);
  }

  lemma {:induction false} NotRunAllNext(g: Graph, st: Statuses, i: Id, rs: seq<Id>, n: nat, m: nat)
    requires Fits(g, st) && i < Size(g) && n < m == n + 1 <= |rs| && forall r :: r in rs ==> i < r < Size(g)
    ensures (forall r :: r in rs[n..] ==> r in rs) && (forall r :: r in rs[m..] ==> r in rs) && rs[n] in rs
    ensures NotRunAll(g, st, i, rs[n..]) == NotRunAll(g, ActionGraph.SetStatus(g, st, rs[n], NotRun), i, rs[m..])
  {
    assert rs[n] in rs && rs[n..][0] == rs[n] && rs[n..][1..] == rs[m..];
  }

  lemma {:induction false} NotRunAllEnd(g: Graph, st: Statuses, i: Id, rs: seq<Id>)
    requires Fits(g, st) && i < Size(g)
    ensures NotRunAll(g, st, i, rs[|rs|..]) == st
  {
  }

  lemma {:induction false} GetStatusIs(g: Graph, nodes: seq<Action>, i: Id)
    requires Represents(g, nodes) && i < |nodes|
    ensures Stored(nodes)[i] == nodes[i].status && nodes[i].isGroup == g.nodes[i].isGroup && |nodes[i].actions| == |g.nodes[i].kids|
    ensures ActionGraph.GetStatus(g, Stored(nodes), i) ==
      if !nodes[i].isGroup || nodes[i].status == NotRun then Reading(Stored(nodes), nodes[i].status)
      else Scan(g, Stored(nodes), i, 0, nodes[i].status, Summary(false, false, false))
  {
    assert Shape(g, nodes, i);
  }

  lemma {:induction false} ScanNext(g: Graph, st: Statuses, i: Id, n: nat, was: Status, m: Summary)
    requires Fits(g, st) && i < Size(g) && n < |g.nodes[i].kids|
    ensures Scan(g, st, i, n, was, m) ==
      var kid := ActionGraph.GetStatus(g, st, Kid(g, i, n));
      var m' := Seen(m, kid.status);
      if m'.hasFinished && m'.hasNotFinished && was == Running then Reading(kid.st, was)
      else if kid.status == Running then Reading(ActionGraph.SetStatus(g, kid.st, i, Running), Running)
      else Scan(g, kid.st, i, n + 1, was, m')
  {
  }

  lemma {:induction false} ScanEnd(g: Graph, st: Statuses, i: Id, was: Status, m: Summary)
    requires Fits(g, st) && i < Size(g)
    ensures Scan(g, st, i, |g.nodes[i].kids|, was, m) ==
      var s := if m.hasNotFinished then Pending else if m.hasFailed then Failed else Successful;
      Reading(ActionGraph.SetStatus(g, st, i, s), s)
  {
  }

  lemma {:induction false} SeenIs(m: Summary, s: Status)
    ensures Seen(m, s) ==
      Summary(m.hasFailed || s == Failed || s == NotRun, m.hasFinished || s == Successful || s == Failed || s == NotRun,
        m.hasNotFinished || s == Pending)
  {
  }
}
