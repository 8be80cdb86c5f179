/**
  Progress: a scheduling pass that finds nothing to start, while nothing runs,
  moves some status or finds the plan done; and it never overlooks an action
  that could be started.
*/
module ActionProgress {
  import opened ActionGraph
  import opened ActionInvariant
  import opened ActionReading
  import opened ActionRuns

  // ------------------------------------------------------------------------
  // A measure of the work that is left
  // ------------------------------------------------------------------------

  function Weight(s: Status): nat {
    match s
    case Pending => 3
    case Running => 2
    case Successful => 1
    case Failed => 0
    case NotRun => 0
  }

  function Remaining(st: Statuses): nat {
    if st == [] then 0 else Weight(st[0]) + Remaining(st[1..])
  }

  lemma {:induction false} RemainingDrops(a: Statuses, b: Statuses)
    requires |a| == |b|
    requires forall i :: 0 <= i < |a| ==> a[i] == b[i] || Weight(b[i]) < Weight(a[i])
    ensures Remaining(b) <= Remaining(a)
    ensures a != b ==> Remaining(b) < Remaining(a)
    decreases |a|
  {
    if a != [] {
      RemainingDrops(a[1..], b[1..]);
      if a[0] == b[0] && a[1..] == b[1..] {
        assert a == [a[0]] + a[1..] && b == [b[0]] + b[1..];
      }
    }
  }

  lemma {:induction false} ForwardDrops(g: Graph, st: Statuses, st': Statuses)
    requires Fits(g, st) && Fits(g, st') && Forward(g, st, st')
    ensures Remaining(st') <= Remaining(st)
    ensures st != st' ==> Remaining(st') < Remaining(st)
  {
    forall i | 0 <= i < |st| ensures st[i] == st'[i] || Weight(st'[i]) < Weight(st[i]) {
      assert Onward(g, i, st[i], st'[i]);
    }
    RemainingDrops(st, st');
  }

  /** A detour that comes back never left. */
  lemma {:induction false} NoWayBack(g: Graph, a: Statuses, b: Statuses)
    requires Fits(g, a) && Fits(g, b) && Forward(g, a, b) && Forward(g, b, a)
    ensures a == b
  {
    ForwardDrops(g, a, b);
    ForwardDrops(g, b, a);
  }

  // ------------------------------------------------------------------------
  // What the answers mean
  // ------------------------------------------------------------------------

  /** A group whose members are all done answers SUCCESSFUL or FAILED. */
  lemma {:induction false} DoneMembersAnswer(g: Graph, st: Statuses, i: Id, pos: nat, was: Status, m: Summary)
    requires Inv(g, st) && Tame(g) && i < Size(g) && pos <= |g.nodes[i].kids|
    requires !m.hasNotFinished && forall k :: k in g.nodes[i].kids && k < Size(g) ==> Done(st[k])
    ensures Scan(g, st, i, pos, was, m).status in {Successful, Failed}
    decreases |g.nodes[i].kids| - pos
  {
    if pos < |g.nodes[i].kids| {
      var k := Kid(g, i, pos);
      GetStatusKeeps(g, st, k);
      var kid := GetStatus(g, st, k);
      forall x | x in g.nodes[i].kids && x < Size(g) ensures Done(kid.st[x]) {
        assert Onward(g, x, st[x], kid.st[x]);
      }
      DoneMembersAnswer(g, kid.st, i, pos + 1, was, Seen(m, kid.status));
    }
  }

  /** A hollow group that was not marked NOT_RUN answers SUCCESSFUL. */
  lemma {:induction false} HollowAnswers(g: Graph, st: Statuses, i: Id)
    requires Inv(g, st) && Tame(g) && i < Size(g) && Hollow(g, i) && st[i] != NotRun
    ensures GetStatus(g, st, i).status == Successful
    decreases i, 1, 0
  {
    HollowScan(g, st, i, 0, NothingSeen);
  }

  lemma {:induction false} HollowScan(g: Graph, st: Statuses, i: Id, pos: nat, m: Summary)
    requires Inv(g, st) && Tame(g) && i < Size(g) && Hollow(g, i) && st[i] != NotRun
    requires pos <= |g.nodes[i].kids| && !m.hasNotFinished && !m.hasFailed
    ensures Scan(g, st, i, pos, st[i], m).status == Successful
    decreases i, 0, |g.nodes[i].kids| - pos
  {
    if pos < |g.nodes[i].kids| {
      var k := Kid(g, i, pos);
      assert NodeOk(g, i) && NodeInv(g, st, k);
      HollowShelters(g, k);
      HollowAnswers(g, st, k);
      GetStatusKeeps(g, st, k);
      PassedKid(g, st, GetStatus(g, st, k).st, i, k);
      HollowScan(g, GetStatus(g, st, k).st, i, pos + 1, Seen(m, Successful));
    }
  }

  // ------------------------------------------------------------------------
  // Asking finds out what has ended
  // ------------------------------------------------------------------------

  /** Every single action at or below `x` ended well. */
  ghost predicate AllEnded(g: Graph, st: Statuses, x: Id)
    requires Fits(g, st) && x < Size(g)
  {
    forall b :: 0 <= b < Size(g) && !g.nodes[b].isGroup && Under(g, b, x) ==> st[b] == Successful
  }

  lemma {:induction false} AllEndedStays(g: Graph, st: Statuses, st': Statuses, x: Id)
    requires Fits(g, st) && Fits(g, st') && Forward(g, st, st') && x < Size(g) && AllEnded(g, st, x)
    ensures AllEnded(g, st', x)
  {
    forall b | 0 <= b < Size(g) && !g.nodes[b].isGroup && Under(g, b, x) ensures st'[b] == Successful {
      assert Onward(g, b, st[b], st'[b]);
    }
  }

  lemma {:induction false} AllEndedKid(g: Graph, st: Statuses, i: Id, a: nat)
    requires Fits(g, st) && i < Size(g) && a < |g.nodes[i].kids| && AllEnded(g, st, i)
    ensures AllEnded(g, st, Kid(g, i, a))
  {
    var k := Kid(g, i, a);
    forall b | 0 <= b < Size(g) && !g.nodes[b].isGroup && Under(g, b, k) ensures st[b] == Successful {
      UnderThen(g, b, k);
    }
  }

  lemma {:induction false} SingleUnder(g: Graph, x: Id) returns (b: Id)
    requires WellFormed(g) && x < Size(g) && !Hollow(g, x)
    ensures b < Size(g) && !g.nodes[b].isGroup && Under(g, b, x)
    decreases x
  {
    assert NodeOk(g, x);
    if g.nodes[x].isGroup {
      var k :| k in g.nodes[x].kids && !Hollow(g, k);
      b := SingleUnder(g, k);
      UnderThen(g, b, k);
    } else {
      b := x;
    }
  }

  /** What ended well is not marked as failed. */
  lemma {:induction false} EndedNotBad(g: Graph, st: Statuses, x: Id)
    requires Inv(g, st) && x < Size(g) && AllEnded(g, st, x) && !Exposed(g, x)
    ensures !Bad(st[x])
    decreases x, 1, 0
  {
    assert NodeOk(g, x) && NodeInv(g, st, x);
    if !Hollow(g, x) && Bad(st[x]) {
      var b := SingleUnder(g, x);
      if st[x] == Failed && g.nodes[x].isGroup {
        var k :| k in g.nodes[x].kids && Bad(st[k]);
        var a := KidAt(g, x, k);
        EndedKidNotBad(g, st, x, a);
      } else if st[x] == NotRun {
        assert NodeInv(g, st, b);
        UnderOpen(g, st, b, x);
      }
    }
  }

  lemma {:induction false} EndedKidNotBad(g: Graph, st: Statuses, x: Id, a: nat)
    requires Inv(g, st) && x < Size(g) && AllEnded(g, st, x) && a < |g.nodes[x].kids|
    ensures !Bad(st[Kid(g, x, a)])
    decreases x, 0, a
  {
    var k := Kid(g, x, a);
    var kids := g.nodes[x].kids;
    assert NodeOk(g, x) && NodeOk(g, k) && NodeInv(g, st, k);
    AllEndedKid(g, st, x, a);
    if !Exposed(g, k) {
      EndedNotBad(g, st, k);
    } else if st[k] == NotRun {
      var d :| d in Dependencies(g.nodes[k]) && Bad(st[d]);
      assert NodeOk(g, d);
      var b := KidAt(g, x, d);
      assert kids[b] < kids[a];
      assert b < a;
      EndedKidNotBad(g, st, x, b);
    }
  }

  /** Asking an action below which everything ended well finds it SUCCESSFUL. */
  lemma {:induction false} EndedAnswers(g: Graph, st: Statuses, x: Id)
    requires Inv(g, st) && Tame(g) && x < Size(g) && AllEnded(g, st, x) && !Bad(st[x])
    ensures GetStatus(g, st, x).status == Successful
    decreases x, 1, 0
  {
    if g.nodes[x].isGroup {
      EndedScan(g, st, x, 0, NothingSeen);
    } else {
      assert Under(g, x, x);
    }
  }

  lemma {:induction false} EndedScan(g: Graph, st: Statuses, x: Id, pos: nat, m: Summary)
    requires Inv(g, st) && Tame(g) && x < Size(g) && g.nodes[x].isGroup && AllEnded(g, st, x)
    requires pos <= |g.nodes[x].kids| && !m.hasNotFinished && !m.hasFailed
    ensures forall was :: Scan(g, st, x, pos, was, m).status == Successful
    decreases x, 0, |g.nodes[x].kids| - pos
  {
    if pos < |g.nodes[x].kids| {
      var k := Kid(g, x, pos);
      EndedKidNotBad(g, st, x, pos);
      AllEndedKid(g, st, x, pos);
      EndedAnswers(g, st, k);
      GetStatusKeeps(g, st, k);
      var kid := GetStatus(g, st, k);
      AllEndedStays(g, st, kid.st, x);
      EndedScan(g, kid.st, x, pos + 1, Seen(m, Successful));
    }
  }

  lemma {:induction false} DependencyNotExposed(g: Graph, i: Id, d: Id)
    requires WellFormed(g) && Tame(g) && i < Size(g) && !Hollow(g, i)
    requires d in Dependencies(g.nodes[i]) && d < Size(g)
    ensures !Exposed(g, d)
  {
    assert NodeOk(g, i) && TameAt(g, i);
  }

  /** An action that runs something passes the test when everything it waits for ended well. */
  lemma {:induction false} MetPasses(g: Graph, st: Statuses, i: Id, pos: nat, ok: bool)
    requires Inv(g, st) && Tame(g) && i < Size(g) && !Hollow(g, i) && pos <= |Dependencies(g.nodes[i])|
    requires forall d :: d in Dependencies(g.nodes[i]) && d < Size(g) ==> AllEnded(g, st, d)
    ensures CheckAll(g, st, i, pos, ok).ready == ok
    decreases |Dependencies(g.nodes[i])| - pos
  {
    if pos < |Dependencies(g.nodes[i])| {
      var d := Dep(g, i, pos);
      var one := AskEnded(g, st, i, d);
      var two := AskEnded(g, one, i, d);
      var three := AskEnded(g, two, i, d);
      ForwardTransitive(g, st, one, two);
      ForwardTransitive(g, st, two, three);
      forall e | e in Dependencies(g.nodes[i]) && e < Size(g) ensures AllEnded(g, three, e) {
        AllEndedStays(g, st, three, e);
      }
      MetPasses(g, three, i, pos + 1, ok);
    }
  }

  lemma {:induction false} AskEnded(g: Graph, st: Statuses, i: Id, d: Id) returns (st': Statuses)
    requires Inv(g, st) && Tame(g) && i < Size(g) && !Hollow(g, i)
    requires d in Dependencies(g.nodes[i]) && d < Size(g) && AllEnded(g, st, d)
    ensures GetStatus(g, st, d) == Reading(st', Successful)
    ensures Inv(g, st') && Forward(g, st, st') && AllEnded(g, st', d)
  {
    DependencyNotExposed(g, i, d);
    EndedNotBad(g, st, d);
    EndedAnswers(g, st, d);
    GetStatusKeeps(g, st, d);
    st' := GetStatus(g, st, d).st;
    AllEndedStays(g, st, st', d);
  }

  lemma {:induction false} SuccessfulEnded(g: Graph, st: Statuses, x: Id)
    requires Inv(g, st) && x < Size(g) && st[x] == Successful
    ensures AllEnded(g, st, x)
  {
    forall b | 0 <= b < Size(g) && !g.nodes[b].isGroup && Under(g, b, x) ensures st[b] == Successful {
      UnderSuccessful(g, st, b, x);
    }
  }

  // ------------------------------------------------------------------------
  // A pass that changes nothing
  // ------------------------------------------------------------------------

  ghost predicate NothingRuns(g: Graph, st: Statuses)
    requires Fits(g, st)
  {
    forall i :: 0 <= i < Size(g) && !g.nodes[i].isGroup ==> st[i] != Running
  }

  /** The pass over `i` returned null and wrote nothing. */
  ghost predicate Stuck(g: Graph, st: Statuses, i: Id)
    requires Fits(g, st) && i < Size(g)
  {
    GetAvailable(g, st, i) == Choice(st, None)
  }

  /** The pass over member number `pos` and the pass over the members after it. */
  lemma {:induction false} MemberPass(g: Graph, st: Statuses, i: Id, pos: nat)
    requires Inv(g, st) && Tame(g) && i < Size(g) && g.nodes[i].isGroup && pos < |g.nodes[i].kids|
    requires !Hollow(g, i) ==> Open(g, st, i)
    ensures !Hollow(g, Kid(g, i, pos)) ==> OpenUp(g, st, Kid(g, i, pos))
    ensures var c := GetAvailable(g, st, Kid(g, i, pos));
            && Kept(g, st, c.st)
            && (!Hollow(g, i) ==> Open(g, c.st, i))
            && Kept(g, c.st, FirstAvailable(g, c.st, i, pos + 1).st)
  {
    var k := Kid(g, i, pos);
    if !Hollow(g, k) {
      HollowUp(g, k);
      assert OpenUp(g, st, k);
    }
    GetAvailableKeeps(g, st, k);
    var c := GetAvailable(g, st, k);
    if !Hollow(g, i) {
      OpenKept(g, st, c.st, i);
    }
    FirstAvailableKeeps(g, c.st, i, pos + 1);
  }

  lemma {:induction false} StuckMembers(g: Graph, st: Statuses, i: Id, pos: nat, a: nat)
    requires Inv(g, st) && Tame(g) && i < Size(g) && g.nodes[i].isGroup
    requires !Hollow(g, i) ==> Open(g, st, i)
    requires pos <= a < |g.nodes[i].kids| && FirstAvailable(g, st, i, pos) == Choice(st, None)
    ensures Stuck(g, st, Kid(g, i, a))
    decreases a - pos
  {
    MemberPass(g, st, i, pos);
    var c := GetAvailable(g, st, Kid(g, i, pos));
    assert c.picked.None?;
    NoWayBack(g, st, c.st);
    if pos < a {
      StuckMembers(g, st, i, pos + 1, a);
    }
  }

  /** Entering a group whose pass is stuck goes on to its members. */
  lemma {:induction false} StuckEnters(g: Graph, st: Statuses, i: Id)
    requires Inv(g, st) && Tame(g) && i < Size(g) && g.nodes[i].isGroup
    requires !Hollow(g, i) && Open(g, st, i) && Stuck(g, st, i) && st[i] in {Pending, Running}
    ensures FirstAvailable(g, st, i, 0) == Choice(st, None)
    ensures GetStatus(g, st, i) == Reading(st, st[i])
  {
    assert NodeOk(g, i) && NodeInv(g, st, i);
    assert OpenUp(g, st, i);
    GetStatusKeeps(g, st, i);
    var first := GetStatus(g, st, i);
    OpenKept(g, st, first.st, i);
    IsReadyKeeps(g, st, i);
    var own := IsReady(g, st, i);
    OpenKept(g, st, own.st, i);
    var ds := Dependencies(g.nodes[i]);
    if first.status == Pending {
      CheckAllKeeps(g, first.st, i, 0, true);
      forall d | d in ds && d < Size(g) ensures AllEnded(g, first.st, d) {
        SuccessfulEnded(g, first.st, d);
      }
      MetPasses(g, first.st, i, 0, true);
      FirstAvailableKeeps(g, own.st, i, 0);
      ForwardTransitive(g, first.st, own.st, st);
    } else {
      GetStatusKeeps(g, own.st, i);
      var again := GetStatus(g, own.st, i);
      OpenKept(g, own.st, again.st, i);
      if again.status == Running {
        FirstAvailableKeeps(g, again.st, i, 0);
        NoWayBack(g, again.st, st);
      }
      ForwardTransitive(g, own.st, again.st, st);
    }
    NoWayBack(g, st, own.st);
    NoWayBack(g, st, first.st);
  }

  lemma {:induction false} StuckHollow(g: Graph, st: Statuses, i: Id)
    requires Inv(g, st) && Tame(g) && i < Size(g) && Hollow(g, i) && Stuck(g, st, i)
    ensures Done(st[i])
  {
    assert NodeInv(g, st, i);
    if st[i] != NotRun {
      HollowAnswers(g, st, i);
      GetStatusKeeps(g, st, i);
      GetStatusKeeps(g, GetStatus(g, st, i).st, i);
      var again := GetStatus(g, GetStatus(g, st, i).st, i);
      HollowAnswers(g, GetStatus(g, st, i).st, i);
      assert GetAvailable(g, st, i).st[i] == Successful;
    }
  }

  lemma {:induction false} RootWaitsForNothing(g: Graph)
    requires WellFormed(g)
    ensures g.nodes[Root(g)].depends == []
  {
    var ds := g.nodes[Root(g)].depends;
    assert ds != [] ==> ds[0] in ds;
    forall d | 0 <= d < Root(g) ensures g.up[d] != Size(g) {
      assert NodeOk(g, d);
    }
    assert NodeOk(g, Root(g));
  }

  // ------------------------------------------------------------------------
  // A pass overlooks nothing
  // ------------------------------------------------------------------------

  /** Everything that the single action, or a group around it, waits for ended well. */
  ghost predicate Ripe(g: Graph, st: Statuses, a: Id)
    requires Fits(g, st) && a < Size(g)
  {
    forall y, d :: 0 <= y < Size(g) && Under(g, a, y) && d in Dependencies(g.nodes[y]) && d < Size(g) ==>
      AllEnded(g, st, d)
  }

  lemma {:induction false} RipeStays(g: Graph, st: Statuses, st': Statuses, a: Id)
    requires Fits(g, st) && Fits(g, st') && Forward(g, st, st') && a < Size(g) && Ripe(g, st, a)
    ensures Ripe(g, st', a)
  {
    forall y, d | 0 <= y < Size(g) && Under(g, a, y) && d in Dependencies(g.nodes[y]) && d < Size(g)
      ensures AllEnded(g, st', d)
    {
      AllEndedStays(g, st, st', d);
    }
  }

  lemma {:induction false} PathKid(g: Graph, a: Id, i: Id) returns (n: nat)
    requires WellFormed(g) && a < Size(g) && i < Size(g) && Under(g, a, i) && a != i
    ensures n < |g.nodes[i].kids| && Under(g, a, Kid(g, i, n))
    decreases Size(g) - a
  {
    assert NodeOk(g, a);
    if g.up[a] == i {
      n := KidAt(g, i, a);
    } else {
      n := PathKid(g, g.up[a], i);
    }
  }

  /** Around a ripe action that still waits, nothing is done. */
  lemma {:induction false} RipeNotDone(g: Graph, st: Statuses, a: Id, i: Id)
    requires Inv(g, st) && Tame(g) && a < Size(g) && i < Size(g) && Under(g, a, i)
    requires !g.nodes[a].isGroup && Ripe(g, st, a) && st[a] == Pending
    ensures !Done(st[i])
    decreases i
  {
    assert NodeOk(g, i) && NodeInv(g, st, i);
    UnderNotHollow(g, a, i);
    if st[i] == Successful {
      UnderSuccessful(g, st, a, i);
    } else if st[i] == Failed {
      var n := PathKid(g, a, i);
      RipeNotDone(g, st, a, Kid(g, i, n));
    } else if st[i] == NotRun {
      var d :| d in Dependencies(g.nodes[i]) && Bad(st[d]);
      DependencyNotExposed(g, i, d);
      EndedNotBad(g, st, d);
    }
  }

  /** A pass over `i` that returns null leaves no ripe action of `i` waiting. */
  lemma {:induction false} PassOverlooksNothing(g: Graph, st: Statuses, i: Id, a: Id)
    requires Inv(g, st) && Tame(g) && i < Size(g) && OpenUp(g, st, i)
    requires a < Size(g) && !g.nodes[a].isGroup && Under(g, a, i) && Ripe(g, st, a)
    requires GetAvailable(g, st, i).picked.None?
    ensures GetAvailable(g, st, i).st[a] != Pending
    decreases i, 1, 0
  {
    UnderNotHollow(g, a, i);
    GetAvailableKeeps(g, st, i);
    assert Onward(g, a, st[a], GetAvailable(g, st, i).st[a]);
    IsReadyKeeps(g, st, i);
    var own := IsReady(g, st, i);
    assert Onward(g, a, st[a], own.st[a]);
    RipeStays(g, st, own.st, a);
    if own.st[a] == Pending {
      RipeIsReady(g, st, i, a);
    }
    if g.nodes[i].isGroup {
      var n := PathKid(g, a, i);
      if own.ready {
        MembersOverlookNothing(g, own.st, i, 0, a);
      } else {
        GetStatusKeeps(g, own.st, i);
        var again := GetStatus(g, own.st, i);
        RipeStays(g, own.st, again.st, a);
        assert Onward(g, a, own.st[a], again.st[a]);
        assert Onward(g, i, own.st[i], again.st[i]);
        assert NodeInv(g, again.st, i);
        if again.st[a] == Pending {
          RipeNotDone(g, again.st, a, i);
        }
        if again.status == Running {
          MembersOverlookNothing(g, again.st, i, 0, a);
        }
      }
    }
  }

  /** While a ripe action waits, the action or group around it is ready or RUNNING. */
  lemma {:induction false} RipeIsReady(g: Graph, st: Statuses, i: Id, a: Id)
    requires Inv(g, st) && Tame(g) && i < Size(g) && OpenUp(g, st, i)
    requires a < Size(g) && !g.nodes[a].isGroup && Under(g, a, i) && Ripe(g, st, a)
    requires IsReady(g, st, i).st[a] == Pending
    ensures IsReady(g, st, i).ready || (g.nodes[i].isGroup && IsReady(g, st, i).st[i] == Running)
  {
    UnderNotHollow(g, a, i);
    assert NodeOk(g, i);
    GetStatusKeeps(g, st, i);
    var own := GetStatus(g, st, i);
    OpenKept(g, st, own.st, i);
    RipeStays(g, st, own.st, a);
    if own.status == Pending {
      MetPasses(g, own.st, i, 0, true);
    } else {
      RipeNotDone(g, own.st, a, i);
      if a != i {
        var n := PathKid(g, a, i);
      }
    }
  }

  lemma {:induction false} MembersOverlookNothing(g: Graph, st: Statuses, i: Id, pos: nat, a: Id)
    requires Inv(g, st) && Tame(g) && i < Size(g) && g.nodes[i].isGroup && Open(g, st, i)
    requires a < Size(g) && !g.nodes[a].isGroup && Under(g, a, i) && Ripe(g, st, a)
    requires pos <= |g.nodes[i].kids|
    requires exists n :: pos <= n < |g.nodes[i].kids| && Under(g, a, Kid(g, i, n))
    requires FirstAvailable(g, st, i, pos).picked.None?
    ensures FirstAvailable(g, st, i, pos).st[a] != Pending
    decreases i, 0, |g.nodes[i].kids| - pos
  {
    var k := Kid(g, i, pos);
    UnderNotHollow(g, a, i);
    MemberPass(g, st, i, pos);
    var c := GetAvailable(g, st, k);
    if Under(g, a, k) {
      UnderNotHollow(g, a, k);
      PassOverlooksNothing(g, st, k, a);
      assert Onward(g, a, c.st[a], FirstAvailable(g, c.st, i, pos + 1).st[a]);
    } else {
      RipeStays(g, st, c.st, a);
      MembersOverlookNothing(g, c.st, i, pos + 1, a);
    }
  }

  /**
    The engine is work-conserving: null comes back only when every single action that
    still waits has something unfinished, or failed, to wait for.
  */
  lemma {:induction false} NullMeansNothingToStart(g: Graph, st: Statuses, a: Id)
    requires Inv(g, st) && Tame(g) && a < Size(g) && !g.nodes[a].isGroup
    requires GetAvailable(g, st, Root(g)).picked.None?
    ensures var st' := GetAvailable(g, st, Root(g)).st;
            !(st'[a] == Pending && Ripe(g, st', a))
  {
    RootOpens(g, st);
    GetAvailableKeeps(g, st, Root(g));
    var st' := GetAvailable(g, st, Root(g)).st;
    if st'[a] == Pending && Ripe(g, st', a) {
      forall y, d | 0 <= y < Size(g) && Under(g, a, y) && d in Dependencies(g.nodes[y]) && d < Size(g)
        ensures AllEnded(g, st, d)
      {
        assert AllEnded(g, st', d);
      }
      AllUnderRoot(g, a);
      PassOverlooksNothing(g, st, Root(g), a);
    }
  }

  // ------------------------------------------------------------------------
  // Runs grow
  // ------------------------------------------------------------------------

  ghost function Last(run: seq<System>): System
    requires run != []
  {
    run[|run| - 1]
  }

  lemma {:induction false} RunGrows(g: Graph, run: seq<System>, m: Move)
    requires WellFormed(g) && IsRun(g, run) && Enabled(g, Last(run), m)
    ensures IsRun(g, run + [Next(g, Last(run), m)])
  {
    var longer := run + [Next(g, Last(run), m)];
    forall n | 0 < n < |longer| ensures Follows(g, longer[n - 1], longer[n]) {
      if n < |run| {
        assert Follows(g, run[n - 1], run[n]);
      } else {
        assert longer[n - 1] == Last(run);
      }
    }
  }

  lemma {:induction false} Advance(g: Graph, run: seq<System>, m: Move) returns (run': seq<System>)
    requires WellFormed(g) && Tame(g) && IsRun(g, run) && SystemInv(g, Last(run)) && Enabled(g, Last(run), m)
    ensures IsRun(g, run') && run <= run' && Last(run') == Next(g, Last(run), m) && SystemInv(g, Last(run'))
    ensures Remaining(Last(run').st) <= Remaining(Last(run).st)
  {
    RunGrows(g, run, m);
    StepKeeps(g, Last(run), m);
    run' := run + [Next(g, Last(run), m)];
    ForwardDrops(g, Last(run).st, Last(run').st);
  }
}
