/**
  The engine as a transition system: one executor picks and marks actions,
  workers end them in any order, anyone may ask for a status at any time.
*/
module ActionRuns {
  import opened ActionGraph
  import opened ActionInvariant
  import opened ActionReading

  datatype Event = Started(id: Id) | Ended(id: Id, ok: bool)

  /** The statuses, the action that the executor holds between its two steps, and what happened so far. */
  datatype System = System(st: Statuses, held: Option<Id>, log: seq<Event>)

  datatype Move = Ask(i: Id) | Pick | Mark | End(a: Id, ok: bool)

  ghost predicate Enabled(g: Graph, s: System, m: Move)
    requires Fits(g, s.st)
  {
    match m
    case Ask(i) => i < Size(g)
    case Pick => s.held.None?
    case Mark => s.held.Some? && s.held.value < Size(g)
    case End(a, ok) => a < Size(g) && !g.nodes[a].isGroup && s.st[a] == Running
  }

  /** One step. A worker that fails ends its action FAILED, otherwise SUCCESSFUL. */
  ghost function Next(g: Graph, s: System, m: Move): (s': System)
    requires Fits(g, s.st) && Enabled(g, s, m)
    ensures Fits(g, s'.st)
  {
    match m
    case Ask(i) => s.(st := GetStatus(g, s.st, i).st)
    case Pick =>
      var c := GetAvailable(g, s.st, Root(g));
      s.(st := c.st, held := c.picked)
    case Mark =>
      System(SetStatus(g, s.st, s.held.value, Running), None, s.log + [Started(s.held.value)])
    case End(a, ok) =>
      s.(st := SetStatus(g, s.st, a, if ok then Successful else Failed), log := s.log + [Ended(a, ok)])
  }

  ghost function Initial(g: Graph): (s: System)
    requires WellFormed(g)
    ensures Fits(g, s.st)
  {
    System(seq(Size(g), i => Pending), None, [])
  }

  ghost predicate Follows(g: Graph, s: System, s': System)
    requires Fits(g, s.st)
  {
    exists m :: Enabled(g, s, m) && s' == Next(g, s, m)
  }

  /** A run: any number of steps from the initial state. */
  ghost predicate IsRun(g: Graph, run: seq<System>)
    requires WellFormed(g)
  {
    && |run| > 0
    && run[0] == Initial(g)
    && (forall n :: 0 <= n < |run| ==> Fits(g, run[n].st))
    && (forall n :: 0 < n < |run| ==> Follows(g, run[n - 1], run[n]))
  }

  // ------------------------------------------------------------------------
  // Order and history
  // ------------------------------------------------------------------------

  /** `b` is `x` or lies below it. */
  predicate Under(g: Graph, b: Id, x: Id)
    requires WellFormed(g) && b < Size(g) && x < Size(g)
    decreases Size(g) - b
  {
    assert NodeOk(g, b);
    b == x || (g.up[b] < Size(g) && Under(g, g.up[b], x))
  }

  /** Some item around `a` depends, through any number of steps, on an item around `b`. */
  ghost predicate Leads(g: Graph, b: Id, a: Id)
    requires WellFormed(g) && b < Size(g) && a < Size(g)
  {
    exists x, y :: 0 <= x < Size(g) && 0 <= y < Size(g) && Under(g, b, x) && Under(g, a, y) && Downstream(g, x, y)
  }

  /** Single action `b` comes before single action `a`: by static dependencies, or because `a` computes `b` as a dependency. */
  ghost predicate Before(g: Graph, b: Id, a: Id)
    requires WellFormed(g) && b < Size(g) && a < Size(g)
  {
    b in g.nodes[a].computed || Leads(g, b, a)
  }

  /** The events about one action. */
  ghost function About(log: seq<Event>, a: Id): seq<Event> {
    if log == [] then []
    else About(log[..|log| - 1], a) + (if log[|log| - 1].id == a then [log[|log| - 1]] else [])
  }

  /** What must have happened to a single action for it to have this status. */
  function Expected(s: Status, a: Id): seq<Event> {
    match s
    case Pending => []
    case NotRun => []
    case Running => [Started(a)]
    case Successful => [Started(a), Ended(a, true)]
    case Failed => [Started(a), Ended(a, false)]
  }

  ghost predicate HistoryAgrees(g: Graph, s: System)
    requires Fits(g, s.st)
  {
    forall a :: 0 <= a < Size(g) && !g.nodes[a].isGroup ==> About(s.log, a) == Expected(s.st[a], a)
  }

  ghost predicate StartInOrder(g: Graph, log: seq<Event>, n: nat)
    requires WellFormed(g) && n < |log|
  {
    log[n].Started? ==>
      && log[n].id < Size(g)
      && forall b :: 0 <= b < Size(g) && !g.nodes[b].isGroup && Before(g, b, log[n].id) ==>
           Ended(b, true) in log[..n]
  }

  /** Every start comes after the successful end of everything before it in the plan. */
  ghost predicate LinearExtension(g: Graph, log: seq<Event>)
    requires WellFormed(g)
  {
    forall n :: 0 <= n < |log| ==> StartInOrder(g, log, n)
  }

  ghost predicate SystemInv(g: Graph, s: System) {
    && Inv(g, s.st)
    && (s.held.Some? ==> s.held.value < Size(g) && Startable(g, s.st, s.held.value))
    && HistoryAgrees(g, s)
    && LinearExtension(g, s.log)
  }

  // ------------------------------------------------------------------------
  // Each step keeps the invariant
  // ------------------------------------------------------------------------

  lemma {:induction false} InitialInv(g: Graph)
    requires WellFormed(g)
    ensures SystemInv(g, Initial(g))
  {
    var st := Initial(g).st;
    forall i | 0 <= i < Size(g) ensures NodeInv(g, st, i) {
      assert NodeOk(g, i);
    }
  }

  lemma {:induction false} RootOpens(g: Graph, st: Statuses)
    requires Fits(g, st)
    ensures OpenUp(g, st, Root(g))
  {
    assert NodeOk(g, Root(g));
  }

  /** What may be started can still be started after any step that does not start it. */
  lemma {:induction false} StartableStays(g: Graph, st: Statuses, st': Statuses, a: Id)
    requires Inv(g, st) && Tame(g) && Inv(g, st') && Forward(g, st, st')
    requires a < Size(g) && Startable(g, st, a) && st'[a] in {Pending, NotRun}
    ensures Startable(g, st', a)
  {
    assert NodeOk(g, a) && NodeInv(g, st', a);
    forall x | 0 <= x < Size(g) && st[x] == Successful && !Exposed(g, x)
      ensures st'[x] == Successful
    {
      assert Onward(g, x, st[x], st'[x]);
    }
    OpenStays(g, st, st', a);
    forall d | d in Dependencies(g.nodes[a]) ensures st'[d] == Successful {
      MetStays(g, st, st', a, d);
    }
  }

  lemma {:induction false} AboutAppend(log: seq<Event>, e: Event, a: Id)
    ensures About(log + [e], a) == About(log, a) + (if e.id == a then [e] else [])
  {
    assert (log + [e])[..|log + [e]| - 1] == log;
  }

  lemma {:induction false} AboutIn(log: seq<Event>, a: Id, e: Event)
    requires e in About(log, a)
    ensures e in log
    decreases |log|
  {
    if e in About(log[..|log| - 1], a) {
      AboutIn(log[..|log| - 1], a, e);
    }
  }

  lemma {:induction false} HistoryCalm(g: Graph, s: System, s': System)
    requires Fits(g, s.st) && Fits(g, s'.st) && HistoryAgrees(g, s)
    requires s'.log == s.log && Calm(g, s.st, s'.st)
    ensures HistoryAgrees(g, s')
  {
  }

  /** `st'` differs from `st` at the single action `a` and, for other actions, calmly. */
  lemma {:induction false} HistoryEvent(g: Graph, s: System, s': System, a: Id, e: Event)
    requires Fits(g, s.st) && Fits(g, s'.st) && HistoryAgrees(g, s) && a < Size(g) && e.id == a
    requires s'.log == s.log + [e]
    requires Expected(s'.st[a], a) == Expected(s.st[a], a) + [e]
    requires forall x :: 0 <= x < Size(g) && x != a && !g.nodes[x].isGroup ==>
               Expected(s'.st[x], x) == Expected(s.st[x], x)
    ensures HistoryAgrees(g, s')
  {
    forall x | 0 <= x < Size(g) && !g.nodes[x].isGroup
      ensures About(s'.log, x) == Expected(s'.st[x], x)
    {
      AboutAppend(s.log, e, x);
    }
  }

  lemma {:induction false} UpstreamSuccessful(g: Graph, st: Statuses, x: Id, y: Id)
    requires Inv(g, st) && Tame(g) && x < Size(g) && y < Size(g)
    requires Downstream(g, x, y) && !Hollow(g, x) && !Hollow(g, y) && Open(g, st, y)
    ensures st[x] == Successful
    decreases y
  {
    assert NodeOk(g, y) && TameAt(g, y);
    var d :| d in g.nodes[y].depends && (d == x || Downstream(g, x, d));
    if d != x {
      assert NodeOk(g, d) && NodeInv(g, st, d);
      if Hollow(g, d) {
        DownstreamExposed(g, x, d);
      } else {
        UpstreamSuccessful(g, st, x, d);
      }
    }
  }

  lemma {:induction false} UnderSuccessful(g: Graph, st: Statuses, b: Id, x: Id)
    requires Inv(g, st) && b < Size(g) && x < Size(g) && Under(g, b, x) && st[x] == Successful
    ensures st[b] == Successful
    decreases Size(g) - b
  {
    if b != x {
      assert NodeOk(g, b);
      UnderSuccessful(g, st, g.up[b], x);
      assert NodeOk(g, g.up[b]) && NodeInv(g, st, g.up[b]);
    }
  }

  lemma {:induction false} UnderNotHollow(g: Graph, b: Id, x: Id)
    requires WellFormed(g) && b < Size(g) && x < Size(g) && Under(g, b, x) && !Hollow(g, b)
    ensures !Hollow(g, x)
    decreases Size(g) - b
  {
    if b != x {
      HollowUp(g, b);
      assert NodeOk(g, b);
      UnderNotHollow(g, g.up[b], x);
    }
  }

  lemma {:induction false} UnderOpen(g: Graph, st: Statuses, a: Id, y: Id)
    requires Fits(g, st) && a < Size(g) && y < Size(g) && Under(g, a, y) && Open(g, st, a)
    ensures Open(g, st, y)
    decreases Size(g) - a
  {
    if a != y {
      assert NodeOk(g, a) && OpenUp(g, st, a);
      UnderOpen(g, st, g.up[a], y);
    }
  }

  lemma {:induction false} UnderThen(g: Graph, b: Id, k: Id)
    requires WellFormed(g) && b < Size(g) && k < Size(g) && Under(g, b, k) && g.up[k] < Size(g)
    ensures Under(g, b, g.up[k])
    decreases Size(g) - b
  {
    assert NodeOk(g, b) && NodeOk(g, k);
    if b != k {
      UnderThen(g, g.up[b], k);
    } else {
      assert Under(g, g.up[k], g.up[k]);
    }
  }

  /** Whatever comes before an open action is SUCCESSFUL. */
  lemma {:induction false} BeforeSuccessful(g: Graph, st: Statuses, b: Id, a: Id)
    requires Inv(g, st) && Tame(g) && b < Size(g) && a < Size(g)
    requires !g.nodes[a].isGroup && !g.nodes[b].isGroup && Before(g, b, a)
    requires Open(g, st, a) && ComputedMet(g, st, a)
    ensures st[b] == Successful
  {
    if b !in g.nodes[a].computed {
      var x, y :| 0 <= x < Size(g) && 0 <= y < Size(g) &&
        Under(g, b, x) && Under(g, a, y) && Downstream(g, x, y);
      UnderNotHollow(g, b, x);
      UnderNotHollow(g, a, y);
      UnderOpen(g, st, a, y);
      UpstreamSuccessful(g, st, x, y);
      UnderSuccessful(g, st, b, x);
    }
  }

  lemma {:induction false} KeptSystem(g: Graph, s: System, s': System)
    requires SystemInv(g, s) && Tame(g) && Kept(g, s.st, s'.st) && s'.log == s.log
    requires s'.held.None? || s'.held == s.held
    ensures SystemInv(g, s')
  {
    HistoryCalm(g, s, s');
    if s'.held.Some? {
      StartableStays(g, s.st, s'.st, s.held.value);
    }
  }

  lemma {:induction false} MarkKeeps(g: Graph, s: System)
    requires SystemInv(g, s) && Tame(g) && s.held.Some?
    ensures SystemInv(g, Next(g, s, Mark))
    ensures Forward(g, s.st, Next(g, s, Mark).st)
  {
    var a := s.held.value;
    var s' := Next(g, s, Mark);
    SetStatusWrites(g, s.st, a, Running);
    assert s'.st == s.st[a := Running];
    CalmWrite(g, s.st, a, Running);
    HistoryEvent(g, s, s', a, Started(a));
    forall n | 0 <= n < |s'.log| ensures StartInOrder(g, s'.log, n) {
      if n < |s.log| {
        assert StartInOrder(g, s.log, n);
        assert s'.log[..n] == s.log[..n];
      } else {
        assert s'.log[..n] == s.log;
        forall b | 0 <= b < Size(g) && !g.nodes[b].isGroup && Before(g, b, a)
          ensures Ended(b, true) in s.log
        {
          BeforeSuccessful(g, s.st, b, a);
          assert Ended(b, true) in About(s.log, b);
          AboutIn(s.log, b, Ended(b, true));
        }
      }
    }
  }

  /** Ending an action, well or badly, is one write that the invariant allows. */
  lemma {:induction false} EndWrites(g: Graph, st: Statuses, a: Id, ok: bool)
    requires Inv(g, st) && Tame(g) && a < Size(g) && !g.nodes[a].isGroup && st[a] == Running
    ensures var st' := SetStatus(g, st, a, if ok then Successful else Failed);
            && Inv(g, st') && Forward(g, st, st')
            && st'[a] == (if ok then Successful else Failed)
            && forall x :: 0 <= x < Size(g) && x != a && !g.nodes[x].isGroup ==>
                 st'[x] == st[x] || (st[x] == Pending && st'[x] == NotRun)
  {
    assert NodeOk(g, a) && NodeInv(g, st, a);
    SetStatusWrites(g, st, a, if ok then Successful else Failed);
    if ok {
      assert SetStatus(g, st, a, Successful) == st[a := Successful];
      CalmWrite(g, st, a, Successful);
    } else {
      FailWrite(g, st, a, Failed);
      forall x | 0 <= x < Size(g) && Downstream(g, a, x) && !g.nodes[x].isGroup
        ensures st[x] in {Pending, NotRun}
      {
        DownstreamNotBegun(g, st, a, x);
      }
    }
  }

  lemma {:induction false} EndExtends(g: Graph, log: seq<Event>, e: Event)
    requires WellFormed(g) && LinearExtension(g, log) && e.Ended?
    ensures LinearExtension(g, log + [e])
  {
    forall n | 0 <= n < |log + [e]| ensures StartInOrder(g, log + [e], n) {
      if n < |log| {
        assert StartInOrder(g, log, n);
        assert (log + [e])[..n] == log[..n];
      }
    }
  }

  lemma {:induction false} EndKeeps(g: Graph, s: System, a: Id, ok: bool)
    requires SystemInv(g, s) && Tame(g) && Enabled(g, s, End(a, ok))
    ensures SystemInv(g, Next(g, s, End(a, ok)))
    ensures Forward(g, s.st, Next(g, s, End(a, ok)).st)
  {
    hide NodeInv, TameAt, LinearExtension, Exposed, StartInOrder;
    var s' := Next(g, s, End(a, ok));
    EndWrites(g, s.st, a, ok);
    HistoryEvent(g, s, s', a, Ended(a, ok));
    EndExtends(g, s.log, Ended(a, ok));
    if s.held.Some? {
      StartableStays(g, s.st, s'.st, s.held.value);
    }
  }

  /** Every step keeps the invariant and moves statuses only onward. */
  lemma {:induction false} StepKeeps(g: Graph, s: System, m: Move)
    requires SystemInv(g, s) && Tame(g) && Enabled(g, s, m)
    ensures SystemInv(g, Next(g, s, m))
    ensures Forward(g, s.st, Next(g, s, m).st)
  {
    match m {
      case Ask(i) =>
        GetStatusKeeps(g, s.st, i);
        KeptSystem(g, s, Next(g, s, m));
      case Pick =>
        RootOpens(g, s.st);
        GetAvailableKeeps(g, s.st, Root(g));
        KeptSystem(g, s, Next(g, s, m).(held := None));
      case Mark =>
        MarkKeeps(g, s);
      case End(a, ok) =>
        EndKeeps(g, s, a, ok);
    }
  }

  // ------------------------------------------------------------------------
  // Main results over whole runs
  // ------------------------------------------------------------------------

  lemma {:induction false} RunKeeps(g: Graph, run: seq<System>, n: nat)
    requires WellFormed(g) && Tame(g) && IsRun(g, run) && n < |run|
    ensures SystemInv(g, run[n])
    decreases n
  {
    if n == 0 {
      InitialInv(g);
    } else {
      RunKeeps(g, run, n - 1);
      assert Follows(g, run[n - 1], run[n]);
      var m :| Enabled(g, run[n - 1], m) && run[n] == Next(g, run[n - 1], m);
      StepKeeps(g, run[n - 1], m);
    }
  }

  /**
    Dependency safety: a single action that was started has all its dependencies,
    static and computed, and those of all groups around it, SUCCESSFUL.
  */
  lemma {:induction false} DependencySafety(g: Graph, run: seq<System>, n: nat, a: Id)
    requires WellFormed(g) && Tame(g) && IsRun(g, run) && n < |run|
    requires a < Size(g) && !g.nodes[a].isGroup && run[n].st[a] in {Running, Successful, Failed}
    ensures forall y, d :: 0 <= y < Size(g) && Under(g, a, y) && d in g.nodes[y].depends && d < Size(g) ==>
      run[n].st[d] == Successful
    ensures forall c :: c in g.nodes[a].computed && c < Size(g) ==> run[n].st[c] == Successful
  {
    RunKeeps(g, run, n);
    assert NodeInv(g, run[n].st, a);
    forall y, d | 0 <= y < Size(g) && Under(g, a, y) && d in g.nodes[y].depends && d < Size(g)
      ensures run[n].st[d] == Successful
    {
      UnderOpen(g, run[n].st, a, y);
    }
  }

  /** Any run starts its actions in a linear extension of the order of the plan. */
  lemma {:induction false} RunsExtendTheOrder(g: Graph, run: seq<System>, n: nat)
    requires WellFormed(g) && Tame(g) && IsRun(g, run) && n < |run|
    ensures LinearExtension(g, run[n].log)
  {
    RunKeeps(g, run, n);
  }

  /**
    A callable runs at most once, and only for an action that was then RUNNING: the whole
    history of a single action is nothing, a start, or a start and one end.
  */
  lemma {:induction false} RunsOnce(g: Graph, run: seq<System>, n: nat, a: Id)
    requires WellFormed(g) && Tame(g) && IsRun(g, run) && n < |run|
    requires a < Size(g) && !g.nodes[a].isGroup
    ensures About(run[n].log, a) == Expected(run[n].st[a], a)
  {
    RunKeeps(g, run, n);
  }

  lemma {:induction false} StepForward(g: Graph, run: seq<System>, k: nat)
    requires WellFormed(g) && Tame(g) && IsRun(g, run) && 0 < k < |run|
    ensures Forward(g, run[k - 1].st, run[k].st)
  {
    RunKeeps(g, run, k - 1);
    assert Follows(g, run[k - 1], run[k]);
    var m :| Enabled(g, run[k - 1], m) && run[k] == Next(g, run[k - 1], m);
    StepKeeps(g, run[k - 1], m);
  }

  /** Statuses never move back, over any stretch of a run. */
  lemma {:induction false} StatusFinality(g: Graph, run: seq<System>, n: nat, k: nat)
    requires WellFormed(g) && Tame(g) && IsRun(g, run) && n <= k < |run|
    ensures Forward(g, run[n].st, run[k].st)
    decreases k - n
  {
    if n < k {
      StatusFinality(g, run, n, k - 1);
      StepForward(g, run, k);
      ForwardTransitive(g, run[n].st, run[k - 1].st, run[k].st);
    }
  }

  lemma {:induction false} AllUnderRoot(g: Graph, i: Id)
    requires WellFormed(g) && i < Size(g)
    ensures Under(g, i, Root(g))
    decreases Size(g) - i
  {
    assert NodeOk(g, i);
    if i != Root(g) {
      AllUnderRoot(g, g.up[i]);
    }
  }

  /**
    The outcome: when the whole plan is SUCCESSFUL every single action is, and
    nothing is FAILED or NOT_RUN unless a single action FAILED.
  */
  lemma {:induction false} RunOutcome(g: Graph, run: seq<System>, n: nat)
    requires WellFormed(g) && Tame(g) && IsRun(g, run) && n < |run|
    ensures run[n].st[Root(g)] == Successful ==> forall i :: 0 <= i < Size(g) ==> run[n].st[i] == Successful
    ensures (exists i :: 0 <= i < Size(g) && Bad(run[n].st[i])) ==>
      exists i :: 0 <= i < Size(g) && !g.nodes[i].isGroup && run[n].st[i] == Failed
  {
    RunKeeps(g, run, n);
    if run[n].st[Root(g)] == Successful {
      forall i | 0 <= i < Size(g) ensures run[n].st[i] == Successful {
        AllUnderRoot(g, i);
        UnderSuccessful(g, run[n].st, i, Root(g));
      }
    }
  }
}
