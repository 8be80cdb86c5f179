/**
  Workers may take their time: all the actions of a set that waits for nothing else can end before any other action does.
*/
module ActionHold {
  import opened ActionGraph
  import opened ActionInvariant
  import opened ActionReading
  import opened ActionRuns
  import opened ActionProgress
  import opened ActionStuck
  import opened ActionSettle

  /** Whatever comes before a single action of the set is in it. */
  ghost predicate Closed(g: Graph, ks: set<Id>)
    requires WellFormed(g)
  {
    && (forall x: Id :: x in ks ==> x < Size(g) && !g.nodes[x].isGroup)
    && forall x: Id, b: Id :: x in ks && x < Size(g) && b < Size(g) && !g.nodes[b].isGroup && Before(g, b, x) ==> b in ks
  }

  /** No action outside the set has ended. */
  predicate OnlyThese(log: seq<Event>, ks: set<Id>) {
    forall e | e in log && e.Ended? :: e.id in ks
  }

  ghost predicate Holding(g: Graph, ks: set<Id>, run: seq<System>) {
    Going(g, run) && NothingFailed(g, Last(run).st) && OnlyThese(Last(run).log, ks)
  }

  lemma {:induction false} NearerHolds(g: Graph, ks: set<Id>, run: seq<System>, run': seq<System>)
    requires Holding(g, ks, run) && Nearer(g, run, run', {}) && OnlyThese(Last(run').log, ks)
    ensures Holding(g, ks, run')
  {
  }

  ghost predicate BusyWith(g: Graph, st: Statuses, ks: set<Id>)
    requires Fits(g, st)
  {
    exists a: Id :: a in ks && a < Size(g) && !g.nodes[a].isGroup && st[a] == Running
  }

  /** No more actions are started, and none of the set is at work. */
  ghost predicate Held(g: Graph, st: Statuses, ks: set<Id>) {
    Inv(g, st) && Tame(g) && Stuck(g, st, Root(g)) && NothingFailed(g, st) && !BusyWith(g, st, ks)
  }

  lemma {:induction false} HoldingIsHeld(g: Graph, ks: set<Id>, run: seq<System>)
    requires Holding(g, ks, run) && Stuck(g, Last(run).st, Root(g)) && !BusyWith(g, Last(run).st, ks)
    ensures Held(g, Last(run).st, ks)
  {
  }

  /** A run goes on, with ends of actions of the set only, until nothing of the set is at work and no action is to be started. */
  lemma {:induction false} Hold(g: Graph, ks: set<Id>, run: seq<System>) returns (run': seq<System>)
    requires Holding(g, ks, run)
    ensures Holding(g, ks, run') && Held(g, Last(run').st, ks)
    decreases Remaining(Last(run).st), if Last(run).held.None? then 1 else 0
  {
    hide Nearer, Held, Tame, IsRun, SystemInv, Stuck, Remaining;
    assert Fits(g, Last(run).st) by { GoingFits(g, run); }
    run' := run;
    if Last(run).held.Some? {
      run' := MarkNearer(g, run, {});
    } else if !BusyWith(g, Last(run).st, ks) && Stuck(g, Last(run).st, Root(g)) {
      HoldingIsHeld(g, ks, run);
      return;
    } else if BusyWith(g, Last(run).st, ks) {
      var a: Id :| a in ks && a < Size(g) && !g.nodes[a].isGroup && Last(run).st[a] == Running;
      run' := EndNearer(g, run, a, {});
    } else {
      run' := PickNearer(g, run, {});
    }
    NearerHolds(g, ks, run, run');
    run' := Hold(g, ks, run');
  }

  /** By then all actions of a closed set have ended well. */
  lemma {:induction false} HeldEnded(g: Graph, st: Statuses, ks: set<Id>, rank: seq<nat>, x: Id)
    requires Held(g, st, ks) && Closed(g, ks) && Ordered(g, rank) && x in ks
    ensures x < Size(g) && st[x] == Successful
    decreases if x < |rank| then rank[x] else 0
  {
    hide Stuck, Tame, Before;
    NothingBad(g, st);
    forall y, d | 0 <= y < Size(g) && Under(g, x, y) && d in Dependencies(g.nodes[y]) && d < Size(g) ensures AllEnded(g, st, d) {
      forall b | 0 <= b < Size(g) && !g.nodes[b].isGroup && Under(g, b, d) ensures st[b] == Successful {
        DependencyBefore(g, x, y, d, b);
        HeldEnded(g, st, ks, rank, b);
      }
    }
    assert Ripe(g, st, x);
    HeldNotRipe(g, st, ks, x);
  }

  lemma {:induction false} DependencyBefore(g: Graph, x: Id, y: Id, d: Id, b: Id)
    requires WellFormed(g) && x < Size(g) && y < Size(g) && d < Size(g) && b < Size(g) && !g.nodes[b].isGroup && !g.nodes[x].isGroup
    requires Under(g, x, y) && d in Dependencies(g.nodes[y]) && Under(g, b, d)
    ensures Before(g, b, x)
  {
    assert NodeOk(g, y);
    if d in g.nodes[y].depends {
      StaticBefore(g, x, b, y, d);
    } else {
      assert d in g.nodes[y].computed;
      assert !g.nodes[d].isGroup;
      if b != d {
        AroundIsGroup(g, b, d);
      }
      if y != x {
        AroundIsGroup(g, x, y);
      }
    }
  }

  lemma {:induction false} HeldNotRipe(g: Graph, st: Statuses, ks: set<Id>, x: Id)
    requires Held(g, st, ks) && x in ks && x < Size(g) && !g.nodes[x].isGroup && Ripe(g, st, x)
    ensures st[x] == Successful || Bad(st[x])
  {
    NullMeansNothingToStart(g, st, x);
  }

  lemma {:induction false} InitialHolds(g: Graph, ks: set<Id>)
    requires WellFormed(g) && Tame(g)
    ensures Holding(g, ks, [Initial(g)])
  {
    InitialInv(g);
    InitialIsRun(g);
  }

  /** In some run a closed set of actions ends before any other action does, and all goes well. */
  lemma {:induction false} TheseEndFirst(g: Graph, ks: set<Id>) returns (run: seq<System>)
    requires WellFormed(g) && Tame(g) && Acyclic(g) && Closed(g, ks)
    ensures IsRun(g, run) && Last(run).st[Root(g)] == Successful
    ensures forall x: Id, y: Id :: x in ks && y !in ks ==>
      FirstAt(Last(run).log, Ended(x, true)) < FirstAt(Last(run).log, Ended(y, true))
  {
    hide Tame, AtRest, Going, Closed, Held, Ordered;
    InitialHolds(g, ks);
    var half := Hold(g, ks, [Initial(g)]);
    GoingFits(g, half);
    run := Settle(g, half, {});
    NearerIsRun(g, half, run);
    RestIsDone(g, Last(run).st);
    var rank :| Ordered(g, rank);
    forall x: Id, y: Id | x in ks && y !in ks
      ensures FirstAt(Last(run).log, Ended(x, true)) < FirstAt(Last(run).log, Ended(y, true))
    {
      HeldEnded(g, Last(half).st, ks, rank, x);
      EndedInOrder(g, ks, half, run, rank, x, y);
    }
  }

  lemma {:induction false} EndedInOrder(g: Graph, ks: set<Id>, half: seq<System>, run: seq<System>, rank: seq<nat>, x: Id, y: Id)
    requires Holding(g, ks, half) && Held(g, Last(half).st, ks) && Closed(g, ks) && Nearer(g, half, run, {})
    requires x in ks && y !in ks && x < Size(g) && Last(half).st[x] == Successful
    ensures FirstAt(Last(run).log, Ended(x, true)) < FirstAt(Last(run).log, Ended(y, true))
  {
    hide Tame, Held, Inv, LinearExtension, OnlyThese;
    var log, early := Last(run).log, Last(half).log;
    LogGrows(g, half, run);
    AboutIn(early, x, Ended(x, true));
    var i :| 0 <= i < |early| && early[i] == Ended(x, true);
    FirstIsFirst(log, Ended(x, true), i);
    var j := FirstAt(log, Ended(y, true));
    if j < |early| {
      assert early[j] == Ended(y, true);
      OnlyTheseAre(early, ks, j);
    }
  }

  lemma {:induction false} OnlyTheseAre(log: seq<Event>, ks: set<Id>, j: nat)
    requires OnlyThese(log, ks) && j < |log| && log[j].Ended?
    ensures log[j].id in ks
  {
    assert log[j] in log;
  }

  lemma {:induction false} LogGrows(g: Graph, half: seq<System>, run: seq<System>)
    requires Nearer(g, half, run, {})
    ensures Last(half).log <= Last(run).log
  {
    hide Inv, Tame, EndsAs, SystemInv, WellFormed, Follows;
    LogsGrow(g, run, |half| - 1, |run| - 1);
  }

  lemma {:induction false} LogsGrow(g: Graph, run: seq<System>, m: nat, n: nat)
    requires WellFormed(g) && IsRun(g, run) && m <= n < |run|
    ensures run[m].log <= run[n].log
  {
    hide WellFormed, GetAvailable, GetStatus, SetStatus;
    if m < n {
      LogsGrow(g, run, m, n - 1);
      assert Follows(g, run[n - 1], run[n]);
    }
  }
}
