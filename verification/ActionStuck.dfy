/**
  When the engine gets stuck. Static dependencies alone never make it wait for
  ever; a dependency that an action computes can, and these lemmas say exactly when.
*/
module ActionStuck {
  import opened ActionGraph
  import opened ActionInvariant
  import opened ActionReading
  import opened ActionRuns
  import opened ActionProgress

  /** Some group around the action was not run: the action will never be looked at again. */
  ghost predicate Abandoned(g: Graph, st: Statuses, x: Id)
    requires Fits(g, st) && x < Size(g)
  {
    exists y :: 0 <= y < Size(g) && y != x && Under(g, x, y) && st[y] == NotRun
  }

  /** A single action that waits, in groups that were all run so far. */
  ghost predicate Waiter(g: Graph, st: Statuses, x: Id)
    requires Fits(g, st)
  {
    x < Size(g) && !g.nodes[x].isGroup && st[x] == Pending && !Abandoned(g, st, x)
  }

  /** Nothing runs, and a pass over the whole plan returns null and writes nothing. */
  ghost predicate AtRest(g: Graph, st: Statuses) {
    Inv(g, st) && Tame(g) && NothingRuns(g, st) && Stuck(g, st, Root(g))
  }

  /** Single actions that wait, each for the next one. */
  ghost predicate WaitingTrail(g: Graph, st: Statuses, path: seq<Id>)
    requires Fits(g, st)
  {
    && |path| > 0
    && (forall n :: 0 <= n < |path| ==> path[n] < Size(g) && !g.nodes[path[n]].isGroup && st[path[n]] == Pending)
    && (forall n :: 0 < n < |path| ==> Before(g, path[n], path[n - 1]))
  }

  /** The trail leads to a member of a group that was not run, or back to where it has been. */
  ghost predicate DeadEnd(g: Graph, st: Statuses, path: seq<Id>)
    requires Fits(g, st) && WaitingTrail(g, st, path)
  {
    var last := path[|path| - 1];
    Abandoned(g, st, last) || exists n :: 0 <= n < |path| - 1 && path[n] == last
  }

  ghost predicate VainTrail(g: Graph, st: Statuses, a: Id, path: seq<Id>)
    requires Fits(g, st) && a < Size(g)
  {
    && WaitingTrail(g, st, path) && |path| > 1 && path[0] == a && path[1] in g.nodes[a].computed
    && DeadEnd(g, st, path)
  }

  /** All that `a` waits for statically is SUCCESSFUL, but a dependency it computed leads to a dead end. */
  ghost predicate WaitsInVain(g: Graph, st: Statuses, a: Id)
    requires Fits(g, st)
  {
    && a < Size(g) && !g.nodes[a].isGroup && st[a] == Pending && Open(g, st, a)
    && exists path :: VainTrail(g, st, a, path)
  }

  // ------------------------------------------------------------------------
  // Around an action
  // ------------------------------------------------------------------------

  lemma {:induction false} AroundIsGroup(g: Graph, x: Id, y: Id)
    requires WellFormed(g) && x < Size(g) && y < Size(g) && Under(g, x, y) && x != y
    ensures g.nodes[y].isGroup && x < y
    decreases Size(g) - x
  {
    assert NodeOk(g, x);
    if g.up[x] == y {
      assert NodeOk(g, y);
    } else {
      AroundIsGroup(g, g.up[x], y);
    }
  }

  lemma {:induction false} UnderTransitive(g: Graph, x: Id, y: Id, z: Id)
    requires WellFormed(g) && x < Size(g) && y < Size(g) && z < Size(g) && Under(g, x, y) && Under(g, y, z)
    ensures Under(g, x, z)
    decreases Size(g) - x
  {
    assert NodeOk(g, x);
    if x != y {
      UnderTransitive(g, g.up[x], y, z);
    }
  }

  /** Of two items around an action one is around the other. */
  lemma {:induction false} UnderLinear(g: Graph, x: Id, y: Id, z: Id)
    requires WellFormed(g) && x < Size(g) && y < Size(g) && z < Size(g) && Under(g, x, y) && Under(g, x, z)
    ensures Under(g, y, z) || Under(g, z, y)
    decreases Size(g) - x
  {
    assert NodeOk(g, x);
    if x != y && x != z {
      UnderLinear(g, g.up[x], y, z);
    }
  }

  /** What is around an open action was run. */
  lemma {:induction false} OpenIsRun(g: Graph, st: Statuses, x: Id, y: Id)
    requires Inv(g, st) && x < Size(g) && y < Size(g) && Under(g, x, y) && Open(g, st, x)
    requires g.nodes[y].isGroup
    ensures st[y] != NotRun
  {
    UnderOpen(g, st, x, y);
    assert NodeOk(g, y) && NodeInv(g, st, y);
  }

  lemma {:induction false} OpenNotAbandoned(g: Graph, st: Statuses, x: Id)
    requires Inv(g, st) && x < Size(g) && Open(g, st, x)
    ensures !Abandoned(g, st, x)
  {
    forall y | 0 <= y < Size(g) && y != x && Under(g, x, y) ensures st[y] != NotRun {
      AroundIsGroup(g, x, y);
      OpenIsRun(g, st, x, y);
    }
  }

  /** Around a waiter nothing is done. */
  lemma {:induction false} WaiterNotDone(g: Graph, st: Statuses, x: Id, i: Id)
    requires Inv(g, st) && Waiter(g, st, x) && i < Size(g) && Under(g, x, i)
    ensures !Done(st[i])
    decreases i
  {
    assert NodeInv(g, st, i);
    if st[i] == Successful {
      UnderSuccessful(g, st, x, i);
    } else if st[i] == Failed {
      AroundIsGroup(g, x, i);
      var n := PathKid(g, x, i);
      WaiterNotDone(g, st, x, Kid(g, i, n));
    }
  }

  lemma {:induction false} AroundIsNotBelow(g: Graph, x: Id, z: Id)
    requires WellFormed(g) && x < Size(g) && z < Size(g) && Under(g, x, z)
    ensures x <= z < g.up[z]
  {
    assert NodeOk(g, z);
    if x != z {
      AroundIsGroup(g, x, z);
    }
  }

  lemma {:induction false} SingleNotHollow(g: Graph, x: Id, i: Id)
    requires WellFormed(g) && x < Size(g) && i < Size(g) && !g.nodes[x].isGroup && Under(g, x, i)
    ensures !Hollow(g, i)
  {
    UnderNotHollow(g, x, i);
  }

  // ------------------------------------------------------------------------
  // How far a stuck pass reaches
  // ------------------------------------------------------------------------

  /** The pass reaches every member of every open group around a waiter. */
  lemma {:induction false} PassReaches(g: Graph, st: Statuses, x: Id, p: Id, k: Id)
    requires AtRest(g, st) && Waiter(g, st, x) && p < Size(g) && p != x && Under(g, x, p) && Open(g, st, p)
    requires k in g.nodes[p].kids && k < Size(g)
    ensures Stuck(g, st, k)
    decreases Size(g) - p
  {
    hide GetAvailable, NodeInv, TameAt;
    assert NodeOk(g, p);
    if p != Root(g) {
      assert OpenUp(g, st, p);
      UnderThen(g, x, p);
      AroundIsGroup(g, x, p);
      PassReaches(g, st, x, g.up[p], p);
    }
    WaiterNotDone(g, st, x, p);
    SingleNotHollow(g, x, p);
    AroundIsGroup(g, x, p);
    StuckEnters(g, st, p);
    var a := KidAt(g, p, k);
    StuckMembers(g, st, p, 0, a);
  }

  lemma {:induction false} CheckOneMarks(g: Graph, st: Statuses, i: Id, d: Id)
    requires i < Size(g) && d < Size(g) && Waiting(g, st, i) && d in Dependencies(g.nodes[i])
    requires !g.nodes[d].isGroup && Bad(st[d])
    ensures CheckOne(g, st, i, d).st[i] == NotRun
  {
    hide NodeInv, TameAt, Hollow;
    assert GetStatus(g, st, d) == Reading(st, st[d]);
    SetStatusWrites(g, st, i, NotRun);
  }

  /** `isReady` marks an action NOT_RUN when a single action it computed is FAILED or NOT_RUN. */
  lemma {:induction false} BadDependencySeen(g: Graph, st: Statuses, i: Id, pos: nat, ok: bool, n: nat)
    requires i < Size(g) && Waiting(g, st, i) && pos <= n < |Dependencies(g.nodes[i])|
    requires !g.nodes[Dep(g, i, n)].isGroup && Bad(st[Dep(g, i, n)])
    ensures CheckAll(g, st, i, pos, ok).st[i] == NotRun
    decreases n - pos
  {
    hide NodeInv, TameAt, Hollow, CheckOne, OpenUp, Local;
    var d := Dep(g, i, pos);
    CheckOneKeeps(g, st, i, d);
    var one := CheckOne(g, st, i, d);
    WaitingStays(g, st, one.st, i);
    var ok' := ok && one.status == Successful;
    if pos < n {
      assert Onward(g, Dep(g, i, n), st[Dep(g, i, n)], one.st[Dep(g, i, n)]);
      BadDependencySeen(g, one.st, i, pos + 1, ok', n);
    } else {
      CheckOneMarks(g, st, i, d);
      CheckAllKeeps(g, one.st, i, pos + 1, ok');
    }
  }

  /** An open single action that a stuck pass leaves waiting computed a dependency that is PENDING. */
  lemma {:induction false} OpenWaits(g: Graph, st: Statuses, x: Id) returns (c: Id)
    requires Inv(g, st) && Tame(g) && NothingRuns(g, st) && x < Size(g) && !g.nodes[x].isGroup
    requires st[x] == Pending && Open(g, st, x) && Stuck(g, st, x)
    ensures c in g.nodes[x].computed && c < Size(g) && !g.nodes[c].isGroup && st[c] == Pending
  {
    var ds := Dependencies(g.nodes[x]);
    assert NodeOk(g, x) && OpenUp(g, st, x);
    assert CheckAll(g, st, x, 0, true) == Readiness(st, false);
    if forall d :: d in ds ==> st[d] == Successful {
      forall d | d in ds && d < Size(g) ensures AllEnded(g, st, d) {
        SuccessfulEnded(g, st, d);
      }
      MetPasses(g, st, x, 0, true);
    }
    c :| c in ds && st[c] != Successful;
    assert c in g.nodes[x].computed;
    if Bad(st[c]) {
      var n :| 0 <= n < |ds| && ds[n] == c;
      assert Dep(g, x, n) == c;
      BadDependencySeen(g, st, x, 0, true, n);
    }
  }

  lemma {:induction false} FirstNotDone(g: Graph, st: Statuses, i: Id, a: nat) returns (b: nat)
    requires Fits(g, st) && i < Size(g) && a < |g.nodes[i].kids| && !Done(st[Kid(g, i, a)])
    ensures b < |g.nodes[i].kids| && !Done(st[Kid(g, i, b)])
    ensures forall c :: 0 <= c < b ==> Done(st[Kid(g, i, c)])
    decreases a
  {
    if c :| 0 <= c < a && !Done(st[Kid(g, i, c)]) {
      b := FirstNotDone(g, st, i, c);
    } else {
      b := a;
    }
  }

  lemma {:induction false} SomeMemberNotDone(g: Graph, st: Statuses, i: Id) returns (a: nat)
    requires Inv(g, st) && Tame(g) && i < Size(g) && g.nodes[i].isGroup
    requires !Hollow(g, i) && Open(g, st, i) && Stuck(g, st, i) && !Done(st[i])
    ensures a < |g.nodes[i].kids| && !Done(st[Kid(g, i, a)])
  {
    hide GetAvailable, Open, NodeInv, TameAt;
    StuckEnters(g, st, i);
    if forall k :: k in g.nodes[i].kids && k < Size(g) ==> Done(st[k]) {
      DoneMembersAnswer(g, st, i, 0, st[i], NothingSeen);
    }
    var z :| z in g.nodes[i].kids && z < Size(g) && !Done(st[z]);
    a := KidAt(g, i, z);
  }

  /** Members before which all is done have all they wait for SUCCESSFUL, unless they are NOT_RUN. */
  lemma {:induction false} DoneBeforeIsOpen(g: Graph, st: Statuses, i: Id, a: nat)
    requires Inv(g, st) && i < Size(g) && a < |g.nodes[i].kids| && Open(g, st, i)
    requires !Done(st[Kid(g, i, a)]) && forall c :: 0 <= c < a ==> Done(st[Kid(g, i, c)])
    ensures Open(g, st, Kid(g, i, a))
  {
    hide TameAt, Hollow;
    var kids := g.nodes[i].kids;
    var k := Kid(g, i, a);
    assert NodeOk(g, i) && NodeOk(g, k);
    forall d | d in g.nodes[k].depends ensures st[d] == Successful {
      assert NodeOk(g, d) && NodeInv(g, st, d);
      var b := KidAt(g, i, d);
      assert kids[b] < kids[a];
      assert b < a;
      assert Done(st[Kid(g, i, b)]);
      assert k in g.nodes[d].requiredBy;
    }
    assert OpenUp(g, st, k);
  }

  /** Where a group that is not done came to rest, some member did; the first such one is open. */
  lemma {:induction false} RestingMember(g: Graph, st: Statuses, i: Id) returns (k: Id)
    requires Inv(g, st) && Tame(g) && i < Size(g) && g.nodes[i].isGroup
    requires !Hollow(g, i) && Open(g, st, i) && Stuck(g, st, i) && !Done(st[i])
    ensures k < i && g.up[k] == i && !Hollow(g, k) && Open(g, st, k) && Stuck(g, st, k) && !Done(st[k])
  {
    hide GetAvailable, Open, NodeInv, TameAt, Hollow;
    StuckEnters(g, st, i);
    var a := SomeMemberNotDone(g, st, i);
    a := FirstNotDone(g, st, i, a);
    k := Kid(g, i, a);
    StuckMembers(g, st, i, 0, a);
    DoneBeforeIsOpen(g, st, i, a);
    if Hollow(g, k) {
      StuckHollow(g, st, k);
    }
  }

  lemma {:induction false} RestingSingle(g: Graph, st: Statuses, i: Id) returns (x: Id)
    requires Inv(g, st) && Tame(g) && NothingRuns(g, st) && i < Size(g)
    requires !Hollow(g, i) && Open(g, st, i) && Stuck(g, st, i) && !Done(st[i])
    ensures x < Size(g) && !g.nodes[x].isGroup && Under(g, x, i)
    ensures st[x] == Pending && Open(g, st, x) && Stuck(g, st, x)
    decreases i
  {
    if g.nodes[i].isGroup {
      var k := RestingMember(g, st, i);
      x := RestingSingle(g, st, k);
      UnderThen(g, x, k);
    } else {
      x := i;
    }
  }

  // ------------------------------------------------------------------------
  // A waiter waits for another action
  // ------------------------------------------------------------------------

  /** Outside in, the first item around an action with a dependency that is not SUCCESSFUL. */
  lemma {:induction false} ClosedItem(g: Graph, st: Statuses, i: Id) returns (z: Id, d: Id)
    requires Fits(g, st) && i < Size(g) && !Open(g, st, i)
    ensures z < Size(g) && Under(g, i, z) && OpenUp(g, st, z)
    ensures d in g.nodes[z].depends && d < z && g.up[d] == g.up[z] && z in g.nodes[d].requiredBy && st[d] != Successful
    decreases Size(g) - i
  {
    assert NodeOk(g, i);
    if OpenUp(g, st, i) {
      z := i;
      d :| d in g.nodes[z].depends && st[d] != Successful;
    } else {
      z, d := ClosedItem(g, st, g.up[i]);
    }
  }

  /** Inside an item that is not open yet everything waits. */
  lemma {:induction false} ClosedInside(g: Graph, st: Statuses, y: Id, d: Id)
    requires Inv(g, st) && d < Size(g) && !Open(g, st, d) && !Bad(st[d])
    requires y < Size(g) && Under(g, y, d) && !Hollow(g, y)
    ensures !Begun(st[y]) && st[y] != NotRun
  {
    assert NodeInv(g, st, y) && NodeOk(g, y);
    if Open(g, st, y) {
      UnderOpen(g, st, y, d);
    }
    if st[y] == NotRun && y != d {
      UnderOpen(g, st, g.up[y], d);
    }
  }

  lemma {:induction false} InsideNotAbandoned(g: Graph, st: Statuses, x: Id, z: Id, d: Id, y: Id)
    requires Inv(g, st) && Waiter(g, st, x) && z < Size(g) && Under(g, x, z) && d < Size(g) && g.up[d] == g.up[z]
    requires !Open(g, st, d) && !Bad(st[d])
    requires y < Size(g) && Under(g, y, d) && !g.nodes[y].isGroup
    ensures Waiter(g, st, y)
  {
    ClosedInside(g, st, y, d);
    forall w | 0 <= w < Size(g) && w != y && Under(g, y, w) ensures st[w] != NotRun {
      UnderLinear(g, y, w, d);
      if Under(g, w, d) {
        SingleNotHollow(g, y, w);
        ClosedInside(g, st, w, d);
      } else {
        assert NodeOk(g, d) && NodeOk(g, z) && d != w;
        assert Under(g, g.up[z], w);
        UnderTransitive(g, x, z, w);
        AroundIsGroup(g, y, w);
        assert w != x;
      }
    }
  }

  /** A waiter waits for another single action; if that one is abandoned, it is one that the waiter computed. */
  lemma {:induction false} WaitsFor(g: Graph, st: Statuses, x: Id) returns (y: Id)
    requires AtRest(g, st) && Waiter(g, st, x)
    ensures y < Size(g) && !g.nodes[y].isGroup && st[y] == Pending && Before(g, y, x)
    ensures Waiter(g, st, y) || (Open(g, st, x) && y in g.nodes[x].computed)
  {
    hide GetAvailable, NodeInv, Tame, Before;
    if Open(g, st, x) {
      y := OpenAtRest(g, st, x);
      ComputedBefore(g, x, y);
    } else {
      var z, d := ClosedItem(g, st, x);
      UnfinishedDependency(g, st, x, z, d);
      if Open(g, st, d) {
        y := RestingSingle(g, st, d);
        OpenNotAbandoned(g, st, y);
      } else {
        y := SingleUnder(g, d);
        InsideNotAbandoned(g, st, x, z, d, y);
      }
      StaticBefore(g, x, y, z, d);
    }
  }

  lemma {:induction false} ComputedBefore(g: Graph, x: Id, y: Id)
    requires WellFormed(g) && x < Size(g) && y < Size(g) && y in g.nodes[x].computed
    ensures Before(g, y, x)
  {
  }

  lemma {:induction false} StaticBefore(g: Graph, x: Id, y: Id, z: Id, d: Id)
    requires WellFormed(g) && x < Size(g) && y < Size(g) && z < Size(g) && d < Size(g)
    requires Under(g, x, z) && Under(g, y, d) && d in g.nodes[z].depends
    ensures Before(g, y, x)
  {
    assert Downstream(g, d, z);
  }

  lemma {:induction false} OpenAtRest(g: Graph, st: Statuses, x: Id) returns (c: Id)
    requires AtRest(g, st) && Waiter(g, st, x) && Open(g, st, x)
    ensures c in g.nodes[x].computed && c < Size(g) && !g.nodes[c].isGroup && st[c] == Pending
  {
    hide GetAvailable, NodeInv;
    assert NodeOk(g, x);
    if x != Root(g) {
      assert OpenUp(g, st, x) && Under(g, g.up[x], g.up[x]);
      PassReaches(g, st, x, g.up[x], x);
    }
    c := OpenWaits(g, st, x);
  }

  /** What an item around a waiter statically waits for has not ended, and the stuck pass reached it. */
  lemma {:induction false} UnfinishedDependency(g: Graph, st: Statuses, x: Id, z: Id, d: Id)
    requires AtRest(g, st) && Waiter(g, st, x) && z < Size(g) && Under(g, x, z) && OpenUp(g, st, z)
    requires d in g.nodes[z].depends && d < z && g.up[d] == g.up[z] && z in g.nodes[d].requiredBy && st[d] != Successful
    ensures !Done(st[d]) && !Hollow(g, d) && Stuck(g, st, d)
  {
    hide GetAvailable, Exposed;
    assert NodeOk(g, z) && NodeOk(g, d) && NodeInv(g, st, d) && TameAt(g, z);
    RootWaitsForNothing(g);
    UnderThen(g, x, z);
    AroundIsNotBelow(g, x, z);
    PassReaches(g, st, x, g.up[z], d);
    WaiterNotDone(g, st, x, z);
    SingleNotHollow(g, x, z);
    if Hollow(g, d) {
      StuckHollow(g, st, d);
    }
  }

  // ------------------------------------------------------------------------
  // When the engine gets stuck
  // ------------------------------------------------------------------------

  /** A trail from a waiter, up to `n` steps long unless it ends at an abandoned action. */
  lemma {:induction false} TrailFrom(g: Graph, st: Statuses, x: Id, n: nat) returns (path: seq<Id>)
    requires Fits(g, st) && AtRest(g, st) && Waiter(g, st, x)
    ensures WaitingTrail(g, st, path) && path[0] == x
    ensures |path| == n + 1 || Abandoned(g, st, path[|path| - 1])
    decreases n
  {
    hide AtRest, Before, Abandoned;
    if n == 0 {
      path := [x];
    } else {
      var y := WaitsFor(g, st, x);
      if Abandoned(g, st, y) {
        path := [x, y];
      } else {
        var rest := TrailFrom(g, st, y, n - 1);
        path := [x] + rest;
        forall m | 0 < m < |path| ensures Before(g, path[m], path[m - 1]) {
          if m > 1 {
            assert path[m] == rest[m - 1] && path[m - 1] == rest[m - 2];
          }
        }
      }
    }
  }

  lemma {:induction false} Pigeonhole(path: seq<Id>, n: nat) returns (i: nat, j: nat)
    requires |path| > n && forall k :: 0 <= k < |path| ==> path[k] < n
    ensures i < j < |path| && path[i] == path[j]
    decreases n
  {
    var last := |path| - 1;
    if n == 1 {
      i, j := 0, last;
    } else if k :| 0 <= k < last && path[k] == path[last] {
      i, j := k, last;
    } else {
      var rest := seq(last, k requires 0 <= k < last => if path[k] == n - 1 then path[last] else path[k]);
      i, j := Pigeonhole(rest, n - 1);
    }
  }

  lemma {:induction false} TrailPrefix(g: Graph, st: Statuses, path: seq<Id>, n: nat)
    requires Fits(g, st) && WaitingTrail(g, st, path) && 0 < n <= |path|
    ensures WaitingTrail(g, st, path[..n])
  {
    hide Before;
  }

  /** From a waiter a trail leads to a dead end. */
  lemma {:induction false} LeadsToDeadEnd(g: Graph, st: Statuses, x: Id) returns (path: seq<Id>)
    requires Fits(g, st) && AtRest(g, st) && Waiter(g, st, x)
    ensures WaitingTrail(g, st, path) && path[0] == x && DeadEnd(g, st, path)
  {
    hide AtRest, Before, Abandoned;
    path := TrailFrom(g, st, x, Size(g));
    if !Abandoned(g, st, path[|path| - 1]) {
      var i, j := Pigeonhole(path, Size(g));
      TrailPrefix(g, st, path, j + 1);
      path := path[..j + 1];
      assert path[i] == path[|path| - 1];
    }
  }

  lemma {:induction false} LongerTrail(g: Graph, st: Statuses, a: Id, path: seq<Id>)
    requires Fits(g, st) && WaitingTrail(g, st, path) && DeadEnd(g, st, path) && a < Size(g)
    requires !g.nodes[a].isGroup && st[a] == Pending && path[0] in g.nodes[a].computed
    ensures VainTrail(g, st, a, [a] + path)
  {
    var longer := [a] + path;
    ComputedBefore(g, a, path[0]);
    forall m | 0 < m < |longer| ensures Before(g, longer[m], longer[m - 1]) {
      if m > 1 {
        assert longer[m] == path[m - 1] && longer[m - 1] == path[m - 2];
      }
    }
    if n :| 0 <= n < |path| - 1 && path[n] == path[|path| - 1] {
      assert longer[n + 1] == longer[|longer| - 1];
    }
  }

  lemma {:induction false} RootIsRun(g: Graph, st: Statuses)
    requires Inv(g, st)
    ensures st[Root(g)] != NotRun
  {
    var root := Root(g);
    assert NodeOk(g, root) && NodeInv(g, st, root);
    RootWaitsForNothing(g);
    if st[root] == NotRun {
      var d :| d in Dependencies(g.nodes[root]) && Bad(st[d]);
      var i :| 0 <= i < Size(g) && !g.nodes[i].isGroup && st[i] == Failed;
      AllUnderRoot(g, i);
      AroundIsGroup(g, i, root);
    }
  }

  /** An action that came to rest at the root of the plan. */
  lemma {:induction false} RestingAction(g: Graph, st: Statuses) returns (a: Id)
    requires AtRest(g, st) && st[Root(g)] !in {Successful, Failed}
    ensures Waiter(g, st, a) && Open(g, st, a)
  {
    hide GetAvailable;
    var root := Root(g);
    RootWaitsForNothing(g);
    assert NodeOk(g, root) && NodeInv(g, st, root);
    RootOpens(g, st);
    assert Open(g, st, root);
    RootIsRun(g, st);
    if Hollow(g, root) {
      StuckHollow(g, st, root);
    }
    a := RestingSingle(g, st, root);
    OpenNotAbandoned(g, st, a);
  }

  /**
    Where nothing runs and a pass finds nothing to start and nothing to write, the plan is not
    done if and only if some action waits in vain.
  */
  lemma {:induction false} StuckIff(g: Graph, st: Statuses)
    requires Fits(g, st) && AtRest(g, st)
    ensures st[Root(g)] !in {Successful, Failed} <==> exists a :: WaitsInVain(g, st, a)
  {
    hide AtRest, Before, Abandoned;
    if st[Root(g)] !in {Successful, Failed} {
      var a := RestingAction(g, st);
      var c := OpenAtRest(g, st, a);
      var path := [c];
      if !Abandoned(g, st, c) {
        path := LeadsToDeadEnd(g, st, c);
      }
      LongerTrail(g, st, a, path);
      assert WaitsInVain(g, st, a);
    }
    if a :| WaitsInVain(g, st, a) {
      VainNotDone(g, st, a);
    }
  }

  lemma {:induction false} VainNotDone(g: Graph, st: Statuses, a: Id)
    requires AtRest(g, st) && WaitsInVain(g, st, a)
    ensures st[Root(g)] !in {Successful, Failed}
  {
    OpenNotAbandoned(g, st, a);
    AllUnderRoot(g, a);
    WaiterNotDone(g, st, a, Root(g));
  }

  /** Then the loop of the executor goes round for ever: neither asking whether the plan is done nor the pass writes anything. */
  lemma {:induction false} RestsForEver(g: Graph, st: Statuses)
    requires Fits(g, st) && AtRest(g, st) && st[Root(g)] !in {Successful, Failed}
    ensures IsDone(g, st, Root(g)) == Readiness(st, false)
    ensures GetAvailable(g, st, Root(g)) == Choice(st, None)
  {
    hide GetAvailable, Open;
    var root := Root(g);
    var a := RestingAction(g, st);
    AllUnderRoot(g, a);
    RootIsRun(g, st);
    if a != root {
      AroundIsGroup(g, a, root);
      SingleNotHollow(g, a, root);
      UnderOpen(g, st, a, root);
      StuckEnters(g, st, root);
    }
  }

  // ------------------------------------------------------------------------
  // An action that waits in vain is never started
  // ------------------------------------------------------------------------

  /** No action of the trail has begun, and the dead end is still one. */
  ghost predicate TrailHolds(g: Graph, st: Statuses, path: seq<Id>)
    requires WellFormed(g) && |st| == Size(g)
  {
    && |path| > 0
    && (forall n :: 0 <= n < |path| ==> path[n] < Size(g) && !g.nodes[path[n]].isGroup && !Begun(st[path[n]]))
    && (forall n :: 0 < n < |path| ==> Before(g, path[n], path[n - 1]))
    && DeadEndHolds(g, st, path)
  }

  ghost predicate DeadEndHolds(g: Graph, st: Statuses, path: seq<Id>)
    requires Fits(g, st) && |path| > 0 && path[|path| - 1] < Size(g)
  {
    var last := path[|path| - 1];
    Abandoned(g, st, last) || exists n :: 0 <= n < |path| - 1 && path[n] == last
  }

  lemma {:induction false} AbandonedStays(g: Graph, st: Statuses, st': Statuses, x: Id)
    requires Fits(g, st) && Fits(g, st') && Forward(g, st, st') && x < Size(g) && Abandoned(g, st, x)
    ensures Abandoned(g, st', x)
  {
    var y :| 0 <= y < Size(g) && y != x && Under(g, x, y) && st[y] == NotRun;
    assert Onward(g, y, st[y], st'[y]);
  }

  /** Nothing on the trail can be started. */
  lemma {:induction false} TrailNotStartable(g: Graph, st: Statuses, path: seq<Id>, n: nat)
    requires Inv(g, st) && Tame(g) && TrailHolds(g, st, path) && n < |path|
    ensures !Startable(g, st, path[n])
  {
    var a := path[n];
    if Startable(g, st, a) {
      if n + 1 < |path| {
        BeforeSuccessful(g, st, path[n + 1], path[(n + 1) - 1]);
      } else if Abandoned(g, st, a) {
        OpenNotAbandoned(g, st, a);
      } else {
        var m :| 0 <= m < |path| - 1 && path[m] == path[|path| - 1];
        BeforeSuccessful(g, st, path[m + 1], path[(m + 1) - 1]);
      }
    }
  }

  lemma {:induction false} TrailStep(g: Graph, s: System, m: Move, path: seq<Id>)
    requires SystemInv(g, s) && Tame(g) && Enabled(g, s, m) && TrailHolds(g, s.st, path)
    ensures TrailHolds(g, Next(g, s, m).st, path)
  {
    hide GetAvailable, GetStatus, NodeInv, TameAt, Before, Open, Startable;
    var s' := Next(g, s, m);
    StepKeeps(g, s, m);
    if Abandoned(g, s.st, path[|path| - 1]) {
      AbandonedStays(g, s.st, s'.st, path[|path| - 1]);
    }
    forall n | 0 <= n < |path| ensures !Begun(s'.st[path[n]]) {
      TrailNotStartable(g, s.st, path, n);
      StepBegins(g, s, m, path[n]);
    }
  }

  /** A step makes nothing begin but the action that the executor holds. */
  lemma {:induction false} StepBegins(g: Graph, s: System, m: Move, a: Id)
    requires SystemInv(g, s) && Tame(g) && Enabled(g, s, m) && a < Size(g) && !g.nodes[a].isGroup
    requires !Begun(s.st[a]) && !Startable(g, s.st, a)
    ensures !Begun(Next(g, s, m).st[a])
  {
    match m {
      case Ask(i) => GetStatusKeeps(g, s.st, i);
      case Pick =>
        RootOpens(g, s.st);
        GetAvailableKeeps(g, s.st, Root(g));
      case Mark => SetStatusWrites(g, s.st, s.held.value, Running);
      case End(e, ok) => EndWrites(g, s.st, e, ok);
    }
  }

  lemma {:induction false} RunMove(g: Graph, run: seq<System>, k: nat) returns (m: Move)
    requires WellFormed(g) && Tame(g) && IsRun(g, run) && 0 < k < |run|
    ensures SystemInv(g, run[k - 1]) && Enabled(g, run[k - 1], m) && run[k] == Next(g, run[k - 1], m)
  {
    hide SystemInv, Enabled, Next, Tame;
    RunKeeps(g, run, k - 1);
    assert Follows(g, run[k - 1], run[k]);
    m :| Enabled(g, run[k - 1], m) && run[k] == Next(g, run[k - 1], m);
  }

  lemma {:induction false} RunFits(g: Graph, run: seq<System>, k: nat)
    requires WellFormed(g) && IsRun(g, run) && k < |run|
    ensures Fits(g, run[k].st)
  {
  }

  lemma {:induction false} TrailThrough(g: Graph, run: seq<System>, n: nat, k: nat, path: seq<Id>)
    requires WellFormed(g) && Tame(g) && IsRun(g, run) && n <= k < |run|
    requires Fits(g, run[n].st) && TrailHolds(g, run[n].st, path)
    ensures Fits(g, run[k].st) && TrailHolds(g, run[k].st, path)
    decreases k - n
  {
    hide *;
    RunFits(g, run, k);
    if n < k {
      TrailThrough(g, run, n, k - 1, path);
      var m := RunMove(g, run, k);
      TrailStep(g, run[k - 1], m, path);
    }
  }

  /** In any state of any run, an action that waits in vain is never started from then on, whatever happens. */
  lemma {:induction false} VainNeverStarts(g: Graph, run: seq<System>, n: nat, k: nat, a: Id)
    requires WellFormed(g) && Tame(g) && IsRun(g, run) && n <= k < |run| && WaitsInVain(g, run[n].st, a)
    ensures run[k].st[a] in {Pending, NotRun}
    ensures run[k].st[Root(g)] != Successful
  {
    hide Tame, Before, DeadEnd, Follows;
    var path :| VainTrail(g, run[n].st, a, path);
    VainTrailHolds(g, run[n].st, a, path);
    TrailThrough(g, run, n, k, path);
    RunOutcome(g, run, k);
    assert path[0] == a;
  }

  lemma {:induction false} VainTrailHolds(g: Graph, st: Statuses, a: Id, path: seq<Id>)
    requires Fits(g, st) && a < Size(g) && VainTrail(g, st, a, path)
    ensures TrailHolds(g, st, path)
  {
    hide Before;
  }

  // ------------------------------------------------------------------------
  // Plans that never get stuck
  // ------------------------------------------------------------------------

  /** A numbering of the single actions along the order of the plan, computed dependencies included. */
  ghost predicate Ordered(g: Graph, rank: seq<nat>)
    requires WellFormed(g)
  {
    |rank| == Size(g) &&
    forall a, b :: 0 <= a < Size(g) && 0 <= b < Size(g) && !g.nodes[a].isGroup && !g.nodes[b].isGroup && Before(g, b, a) ==>
      rank[b] < rank[a]
  }

  /** The static dependencies, computed ones included, have no cycle. */
  ghost predicate Acyclic(g: Graph)
    requires WellFormed(g)
  {
    exists rank :: Ordered(g, rank)
  }

  /** Whatever can make group `y` be passed over, `a` waits for as well; or `a` is itself in that group. */
  ghost predicate Shared(g: Graph, a: Id, y: Id)
    requires WellFormed(g) && a < Size(g) && y < Size(g)
  {
    Under(g, a, y) || forall d :: d in g.nodes[y].depends && d < Size(g) && !Hollow(g, d) ==> Leads(g, d, a)
  }

  /** No failure passes over a group around a computed dependency without passing over the action that computed it. */
  ghost predicate NoHostage(g: Graph)
    requires WellFormed(g)
  {
    forall a, c, y :: 0 <= a < Size(g) && c in g.nodes[a].computed && c < Size(g) && 0 <= y < Size(g) && y != c && Under(g, c, y) ==>
      Shared(g, a, y)
  }

  ghost predicate NothingFailed(g: Graph, st: Statuses)
    requires Fits(g, st)
  {
    forall i :: 0 <= i < Size(g) && !g.nodes[i].isGroup ==> st[i] != Failed
  }

  lemma {:induction false} NothingBad(g: Graph, st: Statuses)
    requires Inv(g, st) && NothingFailed(g, st)
    ensures forall i :: 0 <= i < Size(g) ==> !Bad(st[i])
  {
  }

  /** Why a group that was passed over makes everything that shares its dependencies be passed over. */
  lemma {:induction false} SharedIsNotOpen(g: Graph, st: Statuses, a: Id, c: Id, y: Id)
    requires Inv(g, st) && Tame(g) && a < Size(g) && !g.nodes[a].isGroup && Open(g, st, a)
    requires c < Size(g) && !g.nodes[c].isGroup && y < Size(g) && y != c && Under(g, c, y) && Shared(g, a, y)
    ensures st[y] != NotRun
  {
    hide Open;
    assert NodeOk(g, y) && NodeInv(g, st, y) && TameAt(g, y);
    AroundIsGroup(g, c, y);
    SingleNotHollow(g, c, y);
    if st[y] == NotRun {
      var d :| d in Dependencies(g.nodes[y]) && Bad(st[d]);
      assert d in g.nodes[y].depends && NodeInv(g, st, d);
      if Under(g, a, y) {
        OpenIsRun(g, st, a, y);
      } else {
        var x, z :| 0 <= x < Size(g) && 0 <= z < Size(g) && Under(g, d, x) && Under(g, a, z) && Downstream(g, x, z);
        SingleNotHollow(g, a, z);
        UnderNotHollow(g, d, x);
        UnderOpen(g, st, a, z);
        UpstreamSuccessful(g, st, x, z);
        UnderSuccessful(g, st, d, x);
      }
    }
  }

  lemma {:induction false} NotAbandoned(g: Graph, st: Statuses, a: Id, c: Id)
    requires Inv(g, st) && Tame(g) && (NoHostage(g) || NothingFailed(g, st))
    requires a < Size(g) && !g.nodes[a].isGroup && Open(g, st, a)
    requires c in g.nodes[a].computed && c < Size(g) && !g.nodes[c].isGroup
    ensures !Abandoned(g, st, c)
  {
    hide Open, Shared, Tame;
    if NothingFailed(g, st) {
      NothingBad(g, st);
    } else {
      forall y | 0 <= y < Size(g) && y != c && Under(g, c, y) ensures st[y] != NotRun {
        SharedIsNotOpen(g, st, a, c, y);
      }
    }
  }

  /** At rest nobody waits. */
  lemma {:induction false} NobodyWaits(g: Graph, st: Statuses, rank: seq<nat>, x: Id)
    requires Fits(g, st) && AtRest(g, st) && Ordered(g, rank) && (NoHostage(g) || NothingFailed(g, st))
    requires x < Size(g)
    ensures !Waiter(g, st, x)
    decreases rank[x]
  {
    hide Stuck, Before, Open, NoHostage;
    if Waiter(g, st, x) {
      var y := WaitsFor(g, st, x);
      assert rank[y] < rank[x];
      NobodyWaits(g, st, rank, y);
      NotAbandoned(g, st, x, y);
    }
  }

  /** A plan without cycles and hostages is done when it comes to rest; without failures the cycles alone matter, and it is SUCCESSFUL. */
  lemma {:induction false} RestIsDone(g: Graph, st: Statuses)
    requires Fits(g, st) && AtRest(g, st) && Acyclic(g)
    ensures NoHostage(g) ==> st[Root(g)] in {Successful, Failed}
    ensures NothingFailed(g, st) ==> st[Root(g)] == Successful
  {
    hide AtRest, Ordered, NoHostage, Waiter;
    var rank :| Ordered(g, rank);
    if (NoHostage(g) || NothingFailed(g, st)) && st[Root(g)] !in {Successful, Failed} {
      var a := RestingAction(g, st);
      assert a < Size(g) by { WaiterIsAction(g, st, a); }
      NobodyWaits(g, st, rank, a);
    }
    if NothingFailed(g, st) {
      RestInv(g, st);
      NothingBad(g, st);
    }
  }

  lemma {:induction false} WaiterIsAction(g: Graph, st: Statuses, a: Id)
    requires Fits(g, st) && Waiter(g, st, a)
    ensures a < Size(g)
  {
  }

  lemma {:induction false} RestInv(g: Graph, st: Statuses)
    requires AtRest(g, st)
    ensures Inv(g, st)
  {
  }

  /**
    Progress: when nothing runs, a pass of `getAvailableAction` over the whole plan returns an
    action, or moves some status onward, or the plan is done, or some action waits in vain.
  */
  lemma {:induction false} Progress(g: Graph, st: Statuses)
    requires Inv(g, st) && Tame(g) && NothingRuns(g, st)
    ensures var c := GetAvailable(g, st, Root(g));
            || c.picked.Some? || Remaining(c.st) < Remaining(st) || st[Root(g)] in {Successful, Failed}
            || (AtRest(g, st) && exists a :: WaitsInVain(g, st, a))
  {
    hide WaitsInVain;
    RootOpens(g, st);
    GetAvailableKeeps(g, st, Root(g));
    var c := GetAvailable(g, st, Root(g));
    ForwardDrops(g, st, c.st);
    if c.picked.None? && c.st == st {
      StuckIff(g, st);
    }
  }
}
