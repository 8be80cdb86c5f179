/**
  Any run can be led to rest, whichever actions fail on the way; so the plans that can succeed
  are exactly those whose order, computed dependencies included, has no cycle.
*/
module ActionSettle {
  import opened ActionGraph
  import opened ActionInvariant
  import opened ActionReading
  import opened ActionRuns
  import opened ActionHistory
  import opened ActionProgress
  import opened ActionStuck

  /** Of the actions that ended meanwhile, those in `fails` FAILED and no others. */
  ghost predicate EndsAs(g: Graph, st: Statuses, st': Statuses, fails: set<Id>)
    requires Fits(g, st) && Fits(g, st')
  {
    forall a :: 0 <= a < Size(g) && !g.nodes[a].isGroup ==>
      && (st'[a] == Failed ==> st[a] == Failed || a in fails)
      && (st'[a] == Successful ==> st[a] == Successful || a !in fails)
  }

  /** A run and the invariants of its last state. */
  ghost predicate Going(g: Graph, run: seq<System>) {
    WellFormed(g) && Tame(g) && IsRun(g, run) && SystemInv(g, Last(run))
  }

  /** `run'` goes on after `run` towards rest; of what ends on the way, the actions in `fails` FAILED. */
  ghost predicate Nearer(g: Graph, run: seq<System>, run': seq<System>, fails: set<Id>) {
    && Going(g, run) && Going(g, run') && run <= run'
    && EndsAs(g, Last(run).st, Last(run').st, fails)
    && Remaining(Last(run').st) <= Remaining(Last(run).st)
  }

  lemma {:induction false} GoingFits(g: Graph, run: seq<System>)
    requires Going(g, run)
    ensures run != [] && Fits(g, Last(run).st)
  {
  }

  lemma {:induction false} MarkNearer(g: Graph, run: seq<System>, fails: set<Id>) returns (run': seq<System>)
    requires Going(g, run) && Last(run).held.Some?
    ensures Nearer(g, run, run', fails) && Remaining(Last(run').st) < Remaining(Last(run).st)
    ensures Last(run').log == Last(run).log + [Started(Last(run).held.value)]
  {
    var s := Last(run);
    run' := Advance(g, run, Mark);
    SetStatusWrites(g, s.st, s.held.value, Running);
    StepKeeps(g, s, Mark);
    assert Last(run').st[s.held.value] != s.st[s.held.value];
    ForwardDrops(g, s.st, Last(run').st);
  }

  lemma {:induction false} EndNearer(g: Graph, run: seq<System>, a: Id, fails: set<Id>) returns (run': seq<System>)
    requires Going(g, run) && a < Size(g) && !g.nodes[a].isGroup && Last(run).st[a] == Running
    ensures Nearer(g, run, run', fails) && Remaining(Last(run').st) < Remaining(Last(run).st)
    ensures Last(run').log == Last(run).log + [Ended(a, a !in fails)]
  {
    var s := Last(run);
    run' := Advance(g, run, End(a, a !in fails));
    EndWrites(g, s.st, a, a !in fails);
    assert Last(run').st[a] != s.st[a];
    ForwardDrops(g, s.st, Last(run').st);
  }

  lemma {:induction false} PickNearer(g: Graph, run: seq<System>, fails: set<Id>) returns (run': seq<System>)
    requires Going(g, run) && Last(run).held.None? && !Stuck(g, Last(run).st, Root(g))
    ensures Nearer(g, run, run', fails) && Last(run').log == Last(run).log
    ensures Remaining(Last(run').st) < Remaining(Last(run).st) || Last(run').held.Some?
  {
    var s := Last(run);
    run' := Advance(g, run, Pick);
    RootOpens(g, s.st);
    GetAvailableKeeps(g, s.st, Root(g));
    ForwardDrops(g, s.st, Last(run').st);
  }

  lemma {:induction false} NearerThen(g: Graph, a: seq<System>, b: seq<System>, c: seq<System>, fails: set<Id>)
    requires Nearer(g, a, b, fails) && Nearer(g, b, c, fails)
    ensures Nearer(g, a, c, fails)
  {
  }

  lemma {:induction false} NearerStay(g: Graph, run: seq<System>, fails: set<Id>)
    requires Going(g, run)
    ensures Nearer(g, run, run, fails)
  {
  }

  ghost predicate Busy(g: Graph, st: Statuses)
    requires Fits(g, st)
  {
    exists a :: 0 <= a < Size(g) && !g.nodes[a].isGroup && st[a] == Running
  }

  lemma {:induction false} GoingRests(g: Graph, run: seq<System>)
    requires Going(g, run) && Last(run).held.None? && !Busy(g, Last(run).st) && Stuck(g, Last(run).st, Root(g))
    ensures AtRest(g, Last(run).st)
  {
  }

  /** Every run goes on to a state of rest, whichever actions fail on the way. */
  lemma {:induction false} Settle(g: Graph, run: seq<System>, fails: set<Id>) returns (run': seq<System>)
    requires Going(g, run)
    ensures Nearer(g, run, run', fails) && Last(run').held.None? && AtRest(g, Last(run').st)
    decreases Remaining(Last(run).st), if Last(run).held.None? then 1 else 0
  {
    hide Nearer, AtRest, Tame, IsRun, SystemInv, Stuck, Remaining;
    assert Fits(g, Last(run).st) by { GoingFits(g, run); }
    NearerStay(g, run, fails);
    run' := run;
    if Last(run).held.Some? {
      run' := MarkNearer(g, run, fails);
    } else if !Busy(g, Last(run).st) && Stuck(g, Last(run).st, Root(g)) {
      GoingRests(g, run);
      return;
    } else if Busy(g, Last(run).st) {
      var a :| 0 <= a < Size(g) && !g.nodes[a].isGroup && Last(run).st[a] == Running;
      run' := EndNearer(g, run, a, fails);
    } else {
      run' := PickNearer(g, run, fails);
    }
    var last := Settle(g, run', fails);
    NearerThen(g, run, run', last, fails);
    run' := last;
  }

  // ------------------------------------------------------------------------
  // Which plans can succeed
  // ------------------------------------------------------------------------

  /** Where event `e` stands in the log. */
  ghost function FirstAt(log: seq<Event>, e: Event): (n: nat)
    ensures n <= |log| && e !in log[..n]
    ensures n < |log| ==> log[n] == e
    ensures e in log ==> n < |log|
  {
    if log == [] then 0
    else if log[0] == e then 0
    else
      var n := FirstAt(log[1..], e);
      assert log[..n + 1] == [log[0]] + log[1..][..n];
      n + 1
  }

  lemma {:induction false} FirstIsFirst(log: seq<Event>, e: Event, i: nat)
    requires i < |log| && log[i] == e
    ensures FirstAt(log, e) <= i
    decreases i
  {
    if i > 0 {
      FirstIsFirst(log[1..], e, i - 1);
    }
  }

  /** In a successful run an action starts before it first ends. */
  lemma {:induction false} StartBeforeEnd(g: Graph, run: seq<System>, a: Id) returns (k: nat)
    requires WellFormed(g) && Tame(g) && IsRun(g, run) && Last(run).st[Root(g)] == Successful
    requires a < Size(g) && !g.nodes[a].isGroup
    ensures k < FirstAt(Last(run).log, Ended(a, true)) < |Last(run).log| && Last(run).log[k] == Started(a)
  {
    hide Tame, WellFormed, Follows;
    var log := Last(run).log;
    RunOutcome(g, run, |run| - 1);
    RunsOnce(g, run, |run| - 1, a);
    AboutIn(log, a, Ended(a, true));
    var j := FirstAt(log, Ended(a, true));
    EndOnce(log, j, a);
    k :| 0 <= k < j && log[k] == Started(a);
  }

  /** The order in which the actions of a successful run ended is one along the order of the plan. */
  lemma {:induction false} EndsAreOrdered(g: Graph, run: seq<System>, b: Id, a: Id)
    requires WellFormed(g) && Tame(g) && IsRun(g, run) && Last(run).st[Root(g)] == Successful
    requires a < Size(g) && b < Size(g) && !g.nodes[a].isGroup && !g.nodes[b].isGroup && Before(g, b, a)
    ensures FirstAt(Last(run).log, Ended(b, true)) < FirstAt(Last(run).log, Ended(a, true))
  {
    hide Before, Tame, WellFormed, Follows, FirstAt;
    var log := Last(run).log;
    var k := StartBeforeEnd(g, run, a);
    RunsExtendTheOrder(g, run, |run| - 1);
    assert StartInOrder(g, log, k);
    var i :| 0 <= i < k && log[i] == Ended(b, true);
    FirstIsFirst(log, Ended(b, true), i);
  }

  lemma {:induction false} SuccessIsAcyclic(g: Graph, run: seq<System>)
    requires WellFormed(g) && Tame(g) && IsRun(g, run) && Last(run).st[Root(g)] == Successful
    ensures Acyclic(g)
  {
    hide Before, Tame, WellFormed;
    var log := Last(run).log;
    var rank := seq(Size(g), i requires 0 <= i => FirstAt(log, Ended(i, true)));
    forall a, b | 0 <= a < Size(g) && 0 <= b < Size(g) && !g.nodes[a].isGroup && !g.nodes[b].isGroup && Before(g, b, a)
      ensures rank[b] < rank[a]
    {
      EndsAreOrdered(g, run, b, a);
    }
    assert Ordered(g, rank);
  }

  /** The run has come to rest, and no action failed in it. */
  ghost predicate RestsUnharmed(g: Graph, run: seq<System>)
    requires run != []
  {
    && Fits(g, Last(run).st) && Last(run).held.None? && AtRest(g, Last(run).st) && NothingFailed(g, Last(run).st)
  }

  /**
    The runs without failures that come to rest are all SUCCESSFUL if and only if the order of the plan,
    computed dependencies included, has no cycle. There are such runs.
  */
  lemma {:induction false} SucceedsIffAcyclic(g: Graph) returns (run: seq<System>)
    requires WellFormed(g) && Tame(g)
    ensures IsRun(g, run) && RestsUnharmed(g, run)
    ensures Acyclic(g) <==> forall other :: IsRun(g, other) && RestsUnharmed(g, other) ==> Last(other).st[Root(g)] == Successful
  {
    hide Acyclic, Tame, AtRest, Going;
    InitialInv(g);
    InitialIsRun(g);
    run := Settle(g, [Initial(g)], {});
    NearerIsRun(g, [Initial(g)], run);
    if Acyclic(g) {
      forall other | IsRun(g, other) && RestsUnharmed(g, other) ensures Last(other).st[Root(g)] == Successful {
        RestIsDone(g, Last(other).st);
      }
    }
    if forall other :: IsRun(g, other) && RestsUnharmed(g, other) ==> Last(other).st[Root(g)] == Successful {
      SuccessIsAcyclic(g, run);
    }
  }

  lemma {:induction false} NearerIsRun(g: Graph, run: seq<System>, run': seq<System>)
    requires Nearer(g, run, run', {}) && NothingFailed(g, Last(run).st)
    ensures IsRun(g, run') && Fits(g, Last(run').st) && NothingFailed(g, Last(run').st)
  {
  }

  lemma {:induction false} InitialIsRun(g: Graph)
    requires WellFormed(g) && Tame(g) && SystemInv(g, Initial(g))
    ensures Going(g, [Initial(g)])
  {
  }
}
