/**
  The smallest plan with a hostage: a dependency that an action computes names a member of a group that was
  not run. The member stays PENDING, and the action waits for ever. `ActionStuck` and `ActionHostage` have the
  condition for all plans.
*/
module ComputedWaits {
  import opened ActionGraph
  import opened ActionRuns

  /**
    A sequence 3 of action 0 and a group 2, which holds action 1; beside it action 4, which
    computes action 1 as its dependency. The plan is group 5.
  */
  const WAITS: Graph := Graph(
    [Node(false, [], [], [2], []), Node(false, [], [], [], []), Node(true, [1], [0], [], []),
     Node(true, [0, 2], [], [], []), Node(false, [], [], [], [1]), Node(true, [3, 4], [], [], [])],
    [3, 2, 3, 5, 5, 6])

  const NEW: Statuses := [Pending, Pending, Pending, Pending, Pending, Pending]

  const RUNNING: Statuses := [Running, Pending, Pending, Pending, Pending, Pending]

  const AFTER_FAILURE: Statuses := [Failed, Pending, NotRun, Pending, Pending, Pending]

  const STUCK: Statuses := [Failed, Pending, NotRun, Failed, Pending, Pending]

  lemma {:induction false} NodeFits(i: Id)
    requires i < 6
    ensures NodeOk(WAITS, i)
  {
  }

  lemma {:induction false} WaitsFits()
    ensures WellFormed(WAITS)
  {
    hide NodeOk;
    forall i | 0 <= i < Size(WAITS) ensures NodeOk(WAITS, i) {
      NodeFits(i);
    }
  }

  lemma {:induction false} NewAnswers()
    requires WellFormed(WAITS)
    ensures GetStatus(WAITS, NEW, 2) == Reading(NEW, Pending) && GetStatus(WAITS, NEW, 3) == Reading(NEW, Pending)
    ensures GetStatus(WAITS, NEW, 5) == Reading(NEW, Pending)
  {
    assert NEW[2 := Pending] == NEW && NEW[3 := Pending] == NEW && NEW[5 := Pending] == NEW;
    assert Scan(WAITS, NEW, 2, 1, Pending, Summary(false, false, true)) == Reading(NEW, Pending);
    assert GetStatus(WAITS, NEW, 2) == Reading(NEW, Pending);
    assert Scan(WAITS, NEW, 3, 1, Pending, Summary(false, false, true)) == Reading(NEW, Pending);
    assert GetStatus(WAITS, NEW, 3) == Reading(NEW, Pending);
    assert Scan(WAITS, NEW, 5, 1, Pending, Summary(false, false, true)) == Reading(NEW, Pending);
  }

  /** At first action 0 is to be started. */
  lemma {:induction false} FirstPass()
    requires WellFormed(WAITS)
    ensures GetAvailable(WAITS, NEW, 5) == Choice(NEW, Some(0))
  {
    hide WellFormed;
    NewAnswers();
    assert IsReady(WAITS, NEW, 5) == Readiness(NEW, true) && IsReady(WAITS, NEW, 3) == Readiness(NEW, true);
    assert IsReady(WAITS, NEW, 0) == Readiness(NEW, true);
    assert GetAvailable(WAITS, NEW, 0) == Choice(NEW, Some(0));
    assert GetAvailable(WAITS, NEW, 3) == Choice(NEW, Some(0));
  }

  /** What asking a group answers, once action 0 has failed. */
  lemma {:induction false} SequenceAnswers(st: Statuses)
    requires WellFormed(WAITS) && (st == AFTER_FAILURE || st == STUCK)
    ensures GetStatus(WAITS, st, 2) == Reading(st, NotRun) && GetStatus(WAITS, st, 3) == Reading(STUCK, Failed)
  {
    assert st[3 := Failed] == STUCK;
    assert GetStatus(WAITS, st, 2) == Reading(st, NotRun);
    assert Scan(WAITS, st, 3, 1, st[3], Summary(true, true, false)) == Reading(STUCK, Failed);
  }

  lemma {:induction false} RootAnswers(st: Statuses)
    requires WellFormed(WAITS) && (st == AFTER_FAILURE || st == STUCK)
    ensures GetStatus(WAITS, st, 5) == Reading(STUCK, Pending)
  {
    SequenceAnswers(st);
    assert STUCK[5 := Pending] == STUCK;
    assert Scan(WAITS, STUCK, 5, 1, Pending, Summary(true, true, false)) == Reading(STUCK, Pending);
  }

  /** From then on there is nothing to start. */
  lemma {:induction false} LaterPass(st: Statuses)
    requires WellFormed(WAITS) && (st == AFTER_FAILURE || st == STUCK)
    ensures GetAvailable(WAITS, st, 5) == Choice(STUCK, None)
  {
    hide WellFormed;
    RootAnswers(st);
    SequenceAnswers(STUCK);
    assert IsReady(WAITS, st, 5) == Readiness(STUCK, true);
    assert IsReady(WAITS, STUCK, 3) == Readiness(STUCK, false);
    assert GetAvailable(WAITS, STUCK, 3) == Choice(STUCK, None);
    assert CheckOne(WAITS, STUCK, 4, 1) == Reading(STUCK, Pending);
    assert CheckAll(WAITS, STUCK, 4, 0, true) == Readiness(STUCK, false);
    assert GetAvailable(WAITS, STUCK, 4) == Choice(STUCK, None);
    assert FirstAvailable(WAITS, STUCK, 5, 1) == Choice(STUCK, None);
  }

  /** In the stuck state every step leads back to it. */
  lemma {:induction false} NothingMoves(log: seq<Event>, m: Move)
    requires WellFormed(WAITS) && Enabled(WAITS, System(STUCK, None, log), m)
    ensures Next(WAITS, System(STUCK, None, log), m) == System(STUCK, None, log)
  {
    hide WellFormed, GetAvailable;
    match m
    case Ask(i) =>
      SequenceAnswers(STUCK);
      RootAnswers(STUCK);
    case Pick => LaterPass(STUCK);
    case Mark =>
    case End(a, ok) =>
  }

  lemma {:induction false} FailureSpreads()
    requires WellFormed(WAITS)
    ensures SetStatus(WAITS, RUNNING, 0, Failed) == AFTER_FAILURE
  {
    var st := RUNNING[0 := Failed];
    assert st[2 := NotRun] == AFTER_FAILURE;
    assert SetStatus(WAITS, st, 2, NotRun) == AFTER_FAILURE;
    assert NotRunAll(WAITS, AFTER_FAILURE, 0, [2][1..]) == AFTER_FAILURE;
  }

  lemma {:induction false} FollowsBy(s: System, s': System, m: Move)
    requires Fits(WAITS, s.st) && Enabled(WAITS, s, m) && Next(WAITS, s, m) == s'
    ensures Follows(WAITS, s, s') && Fits(WAITS, s'.st)
  {
  }

  /** Some run gets stuck: nothing runs, the plan is not done, and no step ever changes that. */
  lemma {:induction false} ComputedDependencyWaitsForEver() returns (run: seq<System>)
    ensures WellFormed(WAITS) && IsRun(WAITS, run)
    ensures var s := run[|run| - 1];
            && s.st[Root(WAITS)] == Pending
            && (forall i :: 0 <= i < Size(WAITS) ==> s.st[i] != Running)
            && forall m :: Enabled(WAITS, s, m) ==> Next(WAITS, s, m) == s
  {
    WaitsFits();
    hide *;
    var a := System(NEW, None, []);
    var b := System(NEW, Some(0), []);
    var c := System(RUNNING, None, [Started(0)]);
    var d := System(AFTER_FAILURE, None, [Started(0), Ended(0, false)]);
    var e := System(STUCK, None, [Started(0), Ended(0, false)]);
    Steps(a, b, c, d, e);
    run := [a, b, c, d, e];
    FiveStates(run);
    forall m | Enabled(WAITS, e, m) ensures Next(WAITS, e, m) == e {
      NothingMoves(e.log, m);
    }
    StuckIs();
  }

  lemma {:induction false} FiveStates(run: seq<System>)
    requires WellFormed(WAITS) && |run| == 5 && run[0] == Initial(WAITS)
    requires Fits(WAITS, run[0].st) && Fits(WAITS, run[1].st) && Fits(WAITS, run[2].st) && Fits(WAITS, run[3].st) && Fits(WAITS, run[4].st)
    requires Follows(WAITS, run[0], run[1]) && Follows(WAITS, run[1], run[2])
    requires Follows(WAITS, run[2], run[3]) && Follows(WAITS, run[3], run[4])
    ensures IsRun(WAITS, run)
  {
    hide Follows, WellFormed;
  }

  lemma {:induction false} StuckIs()
    ensures STUCK[Root(WAITS)] == Pending && forall i :: 0 <= i < Size(WAITS) ==> STUCK[i] != Running
  {
  }

  lemma {:induction false} Steps(a: System, b: System, c: System, d: System, e: System)
    requires WellFormed(WAITS)
    requires a == System(NEW, None, []) && b == System(NEW, Some(0), []) && c == System(RUNNING, None, [Started(0)])
    requires d == System(AFTER_FAILURE, None, [Started(0), Ended(0, false)])
    requires e == System(STUCK, None, [Started(0), Ended(0, false)])
    ensures a == Initial(WAITS) && Fits(WAITS, a.st) && Fits(WAITS, b.st) && Fits(WAITS, c.st) && Fits(WAITS, d.st) && Fits(WAITS, e.st)
    ensures Follows(WAITS, a, b) && Follows(WAITS, b, c) && Follows(WAITS, c, d) && Follows(WAITS, d, e)
  {
    hide WellFormed, GetAvailable, SetStatus, Follows;
    FirstPass();
    FollowsBy(a, b, Pick);
    Marks();
    FollowsBy(b, c, Mark);
    FailureSpreads();
    FollowsBy(c, d, End(0, false));
    LaterPass(AFTER_FAILURE);
    FollowsBy(d, e, Pick);
  }

  lemma {:induction false} Marks()
    requires WellFormed(WAITS)
    ensures SetStatus(WAITS, NEW, 0, Running) == RUNNING
  {
  }
}
