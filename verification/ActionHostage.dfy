/** How the failure of one action makes a plan wait for ever. */
module ActionHostage {
  import opened ActionGraph
  import opened ActionInvariant
  import opened ActionReading
  import opened ActionRuns
  import opened ActionProgress
  import opened ActionStuck
  import opened ActionSettle

  /** The single actions of `ks` wait for nothing but each other and `c`, and so does all that must come before `a`. */
  ghost predicate Spared(g: Graph, ks: set<Id>, a: Id, c: Id)
    requires WellFormed(g) && a < Size(g)
  {
    && a in ks
    && (forall x :: x in ks ==> x < Size(g) && !g.nodes[x].isGroup)
    && (forall x, e :: x in ks && x < Size(g) && e in g.nodes[x].computed ==> e in ks || e == c)
    && (forall x, d, b ::
          x in ks && x < Size(g) && 0 <= d < Size(g) && Downstream(g, d, x) && 0 <= b < Size(g) && !g.nodes[b].isGroup && Under(g, b, d) ==>
            b in ks)
    && (forall b :: 0 <= b < Size(g) && !g.nodes[b].isGroup && Leads(g, b, a) ==> b in ks)
  }

  /**
    When `f` fails, group `y` around `c` is passed over, which `a` computed; and `a` is spared: so nothing
    but `c` keeps it from running.
  */
  ghost predicate Hostage(g: Graph, ks: set<Id>, f: Id, a: Id, c: Id, d: Id, y: Id) {
    && WellFormed(g) && Tame(g) && f < Size(g) && a < Size(g) && c < Size(g) && d < Size(g) && y < Size(g)
    && !g.nodes[f].isGroup && !g.nodes[a].isGroup && !g.nodes[c].isGroup && c in g.nodes[a].computed
    && y != c && Under(g, c, y) && Downstream(g, d, y) && Under(g, f, d)
    && Spared(g, ks, a, c) && f !in ks
  }

  /** Only `f` failed, and the plan came to rest. */
  ghost predicate OneFailed(g: Graph, st: Statuses, f: Id) {
    && Fits(g, st) && AtRest(g, st) && f < Size(g) && st[f] == Failed
    && forall x :: 0 <= x < Size(g) && !g.nodes[x].isGroup && st[x] == Failed ==> x == f
  }

  /** An item below and before which no single action is FAILED or NOT_RUN is neither itself. */
  lemma {:induction false} CleanNotBad(g: Graph, st: Statuses, d: Id)
    requires Inv(g, st) && d < Size(g)
    requires forall e, b :: 0 <= e < Size(g) && AtOrBelow(g, e, d) && 0 <= b < Size(g) && !g.nodes[b].isGroup && Under(g, b, e) ==> !Bad(st[b])
    ensures !Bad(st[d])
    decreases d
  {
    hide Tame;
    assert NodeOk(g, d) && NodeInv(g, st, d);
    if !g.nodes[d].isGroup {
      assert AtOrBelow(g, d, d) && Under(g, d, d);
    } else if st[d] == NotRun {
      var e :| e in Dependencies(g.nodes[d]) && Bad(st[e]);
      assert e in g.nodes[d].depends;
      forall e' | 0 <= e' < Size(g) && AtOrBelow(g, e', e) ensures AtOrBelow(g, e', d) {
        BelowNext(g, e', e, d);
      }
      CleanNotBad(g, st, e);
    } else if st[d] == Failed {
      var k :| k in g.nodes[d].kids && Bad(st[k]);
      CleanKid(g, st, d, k);
      CleanNotBad(g, st, k);
    }
  }

  lemma {:induction false} BelowNext(g: Graph, e': Id, e: Id, d: Id)
    requires WellFormed(g) && e' < Size(g) && e < Size(g) && d < Size(g) && e in g.nodes[d].depends && AtOrBelow(g, e', e)
    ensures AtOrBelow(g, e', d)
  {
    assert NodeOk(g, d);
  }

  lemma {:induction false} CleanKid(g: Graph, st: Statuses, d: Id, k: Id)
    requires Inv(g, st) && d < Size(g) && k in g.nodes[d].kids && k < Size(g)
    requires forall b :: 0 <= b < Size(g) && !g.nodes[b].isGroup && Under(g, b, d) ==> !Bad(st[b])
    ensures forall e, b :: 0 <= e < Size(g) && AtOrBelow(g, e, k) && 0 <= b < Size(g) && !g.nodes[b].isGroup && Under(g, b, e) ==> !Bad(st[b])
  {
    forall e, b | 0 <= e < Size(g) && AtOrBelow(g, e, k) && 0 <= b < Size(g) && !g.nodes[b].isGroup && Under(g, b, e)
      ensures !Bad(st[b])
    {
      assert NodeOk(g, d) && NodeOk(g, k);
      if e != k {
        DownstreamShape(g, e, k);
      }
      UnderThen(g, b, e);
    }
  }

  /** What is in the group that was passed over has neither begun nor been looked at. */
  lemma {:induction false} CaptiveWaits(g: Graph, st: Statuses, ks: set<Id>, f: Id, a: Id, c: Id, d: Id, y: Id)
    requires Hostage(g, ks, f, a, c, d, y) && OneFailed(g, st, f)
    ensures st[c] == Pending
  {
    hide Spared, Stuck, Tame;
    assert Inv(g, st) && NodeInv(g, st, c);
    SingleNotHollow(g, c, y);
    SingleNotHollow(g, f, d);
    SingleNotHollow(g, c, c);
    if Open(g, st, y) {
      UpstreamSuccessful(g, st, d, y);
      UnderSuccessful(g, st, f, d);
    }
    assert !Open(g, st, y);
    if Open(g, st, c) {
      UnderOpen(g, st, c, y);
    }
    if OpenUp(g, st, c) {
      AboveOpen(g, st, c, y);
    }
  }

  lemma {:induction false} AboveOpen(g: Graph, st: Statuses, c: Id, y: Id)
    requires Fits(g, st) && c < Size(g) && y < Size(g) && c != y && Under(g, c, y) && OpenUp(g, st, c)
    ensures Open(g, st, y)
  {
    assert NodeOk(g, c);
    UnderOpen(g, st, g.up[c], y);
  }

  /** The spared actions are neither FAILED nor NOT_RUN. */
  lemma {:induction false} SparedNotBad(g: Graph, st: Statuses, ks: set<Id>, f: Id, a: Id, c: Id, d: Id, y: Id, rank: seq<nat>, x: Id)
    requires Hostage(g, ks, f, a, c, d, y) && OneFailed(g, st, f) && Ordered(g, rank) && x in ks && x < Size(g)
    ensures !Bad(st[x])
    decreases rank[x]
  {
    hide Stuck, Tame, Under, NothingRuns;
    CaptiveWaits(g, st, ks, f, a, c, d, y);
    assert Inv(g, st) && NodeInv(g, st, x) && NodeOk(g, x);
    if st[x] == NotRun {
      var e :| e in Dependencies(g.nodes[x]) && Bad(st[e]);
      if e in g.nodes[x].computed {
        assert e in ks && Before(g, e, x);
        SparedNotBad(g, st, ks, f, a, c, d, y, rank, e);
      } else {
        forall e', b | 0 <= e' < Size(g) && AtOrBelow(g, e', e) && 0 <= b < Size(g) && !g.nodes[b].isGroup && Under(g, b, e')
          ensures !Bad(st[b])
        {
          BelowBefore(g, e', e, x, b);
          SparedNotBad(g, st, ks, f, a, c, d, y, rank, b);
        }
        CleanNotBad(g, st, e);
      }
    }
  }

  lemma {:induction false} BelowBefore(g: Graph, e': Id, e: Id, x: Id, b: Id)
    requires WellFormed(g) && e' < Size(g) && e < Size(g) && x < Size(g) && b < Size(g)
    requires e in g.nodes[x].depends && AtOrBelow(g, e', e) && Under(g, b, e')
    ensures Downstream(g, e', x) && Before(g, b, x)
  {
    assert NodeOk(g, x);
    BelowNext(g, e', e, x);
    assert e' != x by {
      if Downstream(g, e', e) {
        DownstreamShape(g, e', e);
      }
    }
    assert Under(g, x, x);
  }

  /** The spared action itself waits, and no group around it was passed over. */
  lemma {:induction false} SparedWaits(g: Graph, st: Statuses, ks: set<Id>, f: Id, a: Id, c: Id, d: Id, y: Id)
    requires Hostage(g, ks, f, a, c, d, y) && OneFailed(g, st, f) && Acyclic(g)
    ensures Waiter(g, st, a)
  {
    hide Stuck, Tame, Under, NothingRuns, Ordered, Spared;
    var rank :| Ordered(g, rank);
    CaptiveWaits(g, st, ks, f, a, c, d, y);
    assert Inv(g, st) && NodeInv(g, st, a);
    SparedItself(g, ks, a, c);
    SparedNotBad(g, st, ks, f, a, c, d, y, rank, a);
    forall w | 0 <= w < Size(g) && w != a && Under(g, a, w) ensures st[w] != NotRun {
      if st[w] == NotRun {
        AroundIsGroup(g, a, w);
        assert NodeInv(g, st, w) && NodeOk(g, w);
        var e :| e in Dependencies(g.nodes[w]) && Bad(st[e]);
        forall e', b | 0 <= e' < Size(g) && AtOrBelow(g, e', e) && 0 <= b < Size(g) && !g.nodes[b].isGroup && Under(g, b, e')
          ensures !Bad(st[b])
        {
          BelowBefore(g, e', e, w, b);
          assert Leads(g, b, a);
          SparedBefore(g, ks, a, c, b);
          SparedNotBad(g, st, ks, f, a, c, d, y, rank, b);
        }
        CleanNotBad(g, st, e);
      }
    }
  }

  lemma {:induction false} SparedItself(g: Graph, ks: set<Id>, a: Id, c: Id)
    requires WellFormed(g) && a < Size(g) && Spared(g, ks, a, c)
    ensures a in ks
  {
  }

  lemma {:induction false} SparedBefore(g: Graph, ks: set<Id>, a: Id, c: Id, b: Id)
    requires WellFormed(g) && a < Size(g) && Spared(g, ks, a, c) && b < Size(g) && !g.nodes[b].isGroup && Leads(g, b, a)
    ensures b in ks
  {
  }

  /** If `f` fails and nothing else does, the plan comes to rest and is not done. */
  lemma {:induction false} OneFailureHangs(g: Graph, ks: set<Id>, f: Id, a: Id, c: Id, d: Id, y: Id) returns (run: seq<System>)
    requires Hostage(g, ks, f, a, c, d, y) && Acyclic(g)
    ensures IsRun(g, run) && Last(run).held.None? && Fits(g, Last(run).st) && AtRest(g, Last(run).st)
    ensures Last(run).st[Root(g)] !in {Successful, Failed}
  {
    hide Acyclic, Tame, AtRest, Spared, Going, SystemInv, Waiter, Follows;
    InitialInv(g);
    InitialIsRun(g);
    run := Settle(g, [Initial(g)], {f});
    NearerFails(g, [Initial(g)], run, {f});
    var st := Last(run).st;
    if st[f] != Failed {
      assert NothingFailed(g, st);
      RestIsDone(g, st);
      RunOutcome(g, run, |run| - 1);
    }
    assert OneFailed(g, st, f);
    SparedWaits(g, st, ks, f, a, c, d, y);
    AllUnderRoot(g, a);
    RestInv(g, st);
    WaiterNotDone(g, st, a, Root(g));
  }

  lemma {:induction false} NearerFails(g: Graph, run: seq<System>, run': seq<System>, fails: set<Id>)
    requires Nearer(g, run, run', fails)
    ensures IsRun(g, run') && run != [] && Fits(g, Last(run).st) && Fits(g, Last(run').st) && EndsAs(g, Last(run).st, Last(run').st, fails)
  {
  }
}
