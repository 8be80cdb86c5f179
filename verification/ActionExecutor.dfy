/**
  The executor's scheduling loop on the action objects, with its thread pool.
*/
module ActionExecutor {
  import opened ActionGraph
  import opened ActionInvariant
  import opened ActionReading
  import opened ActionRuns
  import opened ActionProgress
  import opened ActionStuck
  import opened ActionHeap

  /** The pool holds the RUNNING single actions, each once. */
  ghost predicate PoolAgrees(nodes: seq<Action>, st: Statuses, pool: seq<Action>)
    requires |st| == |nodes|
  {
    && (forall i :: 0 <= i < |nodes| && !nodes[i].isGroup ==> (nodes[i] in pool <==> st[i] == Running))
    && (forall n :: 0 <= n < |pool| ==> pool[n] in nodes && !pool[n].isGroup)
    && (forall m, n :: 0 <= m < n < |pool| ==> pool[m] != pool[n])
  }

  /**
    What holds between the steps of the executor: the objects are those of the graph, `run`
    is what happened so far and led to the statuses `st`, and the pool is as it should be.
  */
  ghost predicate Executing(g: Graph, nodes: seq<Action>, st: Statuses, run: seq<System>, pool: seq<Action>) {
    && Fits(g, st) && Tame(g) && |nodes| == Size(g)
    && (forall i :: 0 <= i < |nodes| ==> nodes[i].isGroup == g.nodes[i].isGroup)
    && (forall x, y :: 0 <= x < y < |nodes| ==> nodes[x] != nodes[y])
    && IsRun(g, run) && SystemInv(g, Last(run)) && Last(run).st == st && Last(run).held == None
    && PoolAgrees(nodes, st, pool)
  }

  /** The executor may go on after `st` with what holds after `st'`, and the work left did not grow. */
  ghost predicate Advances(g: Graph, nodes: seq<Action>, st: Statuses, run: seq<System>,
                           st': Statuses, run': seq<System>, pool': seq<Action>) {
    Executing(g, nodes, st', run', pool') && run <= run' && Remaining(st') <= Remaining(st)
  }

  lemma {:induction false} PoolCalm(g: Graph, nodes: seq<Action>, st: Statuses, st': Statuses, pool: seq<Action>)
    requires Fits(g, st) && Fits(g, st') && |nodes| == Size(g) && Calm(g, st, st')
    requires forall i :: 0 <= i < |nodes| ==> nodes[i].isGroup == g.nodes[i].isGroup
    requires PoolAgrees(nodes, st, pool)
    ensures PoolAgrees(nodes, st', pool)
  {
  }

  lemma {:induction false} PoolWithout(g: Graph, nodes: seq<Action>, st: Statuses, st': Statuses, pool: seq<Action>, n: nat, i: Id)
    requires |st| == |st'| == |nodes| && n < |pool| && i < |nodes| && pool[n] == nodes[i] && !nodes[i].isGroup
    requires PoolAgrees(nodes, st, pool) && st'[i] != Running
    requires forall x, y :: 0 <= x < y < |nodes| ==> nodes[x] != nodes[y]
    requires forall x :: 0 <= x < |nodes| && x != i && !nodes[x].isGroup ==>
               (st'[x] == Running <==> st[x] == Running)
    ensures PoolAgrees(nodes, st', pool[..n] + pool[n + 1..])
  {
    var rest := pool[..n] + pool[n + 1..];
    WithoutOne(pool, n);
    forall x | 0 <= x < |nodes| && !nodes[x].isGroup ensures nodes[x] in rest <==> st'[x] == Running {
      assert nodes[x] in rest <==> nodes[x] in pool && nodes[x] != nodes[i];
      assert x == i || nodes[x] != nodes[i];
    }
    forall m | 0 <= m < |rest| ensures rest[m] in nodes && !rest[m].isGroup {
      assert rest[m] in pool;
    }
  }

  /** Removing one of several different objects. */
  lemma {:induction false} WithoutOne(pool: seq<Action>, n: nat)
    requires n < |pool| && forall m, k :: 0 <= m < k < |pool| ==> pool[m] != pool[k]
    ensures var rest := pool[..n] + pool[n + 1..];
            && (forall a :: a in rest <==> a in pool && a != pool[n])
            && (forall m, k :: 0 <= m < k < |rest| ==> rest[m] != rest[k])
  {
    var rest := pool[..n] + pool[n + 1..];
    forall m | 0 <= m < |rest| ensures rest[m] == pool[if m < n then m else m + 1] {
    }
    forall a | a in pool && a != pool[n] ensures a in rest {
      var m :| 0 <= m < |pool| && pool[m] == a;
      assert rest[if m < n then m else m - 1] == a;
    }
  }

  lemma {:induction false} PoolWith(nodes: seq<Action>, st: Statuses, pool: seq<Action>, i: Id)
    requires |st| == |nodes| && i < |nodes| && !nodes[i].isGroup && PoolAgrees(nodes, st, pool) && st[i] != Running
    requires forall x, y :: 0 <= x < y < |nodes| ==> nodes[x] != nodes[y]
    ensures PoolAgrees(nodes, st[i := Running], pool + [nodes[i]])
  {
  }

  // ------------------------------------------------------------------------
  // The steps, on the statuses
  // ------------------------------------------------------------------------

  lemma {:induction false} StartOf(g: Graph, nodes: seq<Action>) returns (run: seq<System>)
    requires Represents(g, nodes) && Tame(g)
    requires forall i :: 0 <= i < |nodes| ==> nodes[i].status == Pending
    ensures Executing(g, nodes, Stored(nodes), run, [])
  {
    run := [Initial(g)];
    InitialInv(g);
    PlacesDiffer(g, nodes);
    assert Stored(nodes) == Initial(g).st;
  }

  /** Asking whether the plan is done is one step, or two. */
  lemma {:induction false} IsDoneStep(g: Graph, nodes: seq<Action>, st: Statuses, run: seq<System>, pool: seq<Action>)
    returns (run': seq<System>)
    requires Executing(g, nodes, st, run, pool)
    ensures Advances(g, nodes, st, run, IsDone(g, st, Root(g)).st, run', pool)
    ensures IsDone(g, st, Root(g)).ready ==> IsDone(g, st, Root(g)).st[Root(g)] in {Successful, Failed}
    ensures st[Root(g)] in {Successful, Failed} ==> IsDone(g, st, Root(g)).ready
  {
    var root := Root(g);
    run' := Advance(g, run, Ask(root));
    if GetStatus(g, st, root).status != Failed {
      run' := Advance(g, run', Ask(root));
    }
    IsDoneKeeps(g, st, root);
    RootWaitsForNothing(g);
    PoolCalm(g, nodes, st, IsDone(g, st, root).st, pool);
  }

  lemma {:induction false} InvOf(g: Graph, nodes: seq<Action>, st: Statuses, run: seq<System>, pool: seq<Action>)
    requires Executing(g, nodes, st, run, pool)
    ensures Inv(g, st)
  {
  }

  /** A worker ends. */
  lemma {:induction false} EndStep(g: Graph, nodes: seq<Action>, st: Statuses, run: seq<System>, pool: seq<Action>, n: nat, ok: bool)
    returns (i: Id, run': seq<System>)
    requires Executing(g, nodes, st, run, pool) && n < |pool|
    ensures i < |nodes| && nodes[i] == pool[n] && !nodes[i].isGroup && st[i] == Running
    ensures var st' := SetStatus(g, st, i, if ok then Successful else Failed);
            Advances(g, nodes, st, run, st', run', pool[..n] + pool[n + 1..]) && Remaining(st') < Remaining(st)
  {
    hide IsRun, Tame, WellFormed, SetStatus, SystemInv;
    assert Inv(g, st) by { InvOf(g, nodes, st, run, pool); }
    i :| 0 <= i < |nodes| && nodes[i] == pool[n];
    var st' := SetStatus(g, st, i, if ok then Successful else Failed);
    run' := Advance(g, run, End(i, ok));
    EndWrites(g, st, i, ok);
    ForwardDrops(g, st, st');
    PoolWithout(g, nodes, st, st', pool, n, i);
  }

  /** At rest, and not done. */
  ghost predicate Idle(g: Graph, st: Statuses) {
    Fits(g, st) && AtRest(g, st) && st[Root(g)] !in {Successful, Failed}
  }

  lemma {:induction false} PoolRuns(g: Graph, nodes: seq<Action>, st: Statuses, run: seq<System>, pool: seq<Action>)
    requires Executing(g, nodes, st, run, pool) && pool != []
    ensures !NothingRuns(g, st)
  {
    var i :| 0 <= i < |nodes| && nodes[i] == pool[0];
    assert st[i] == Running;
  }

  lemma {:induction false} IdlePool(g: Graph, nodes: seq<Action>, st: Statuses, run: seq<System>, pool: seq<Action>)
    requires Executing(g, nodes, st, run, pool) && Idle(g, st)
    ensures pool == []
  {
    hide Executing, NothingRuns;
    if pool != [] {
      PoolRuns(g, nodes, st, run, pool);
    }
  }

  lemma {:induction false} IdleStays(g: Graph, st: Statuses)
    requires Idle(g, st)
    ensures IsDone(g, st, Root(g)) == Readiness(st, false) && GetAvailable(g, st, Root(g)) == Choice(st, None)
  {
    RestsForEver(g, st);
  }

  /** The executor finds nothing to start. */
  lemma {:induction false} NullStep(g: Graph, nodes: seq<Action>, st: Statuses, run: seq<System>, pool: seq<Action>)
    returns (run': seq<System>)
    requires Executing(g, nodes, st, run, pool) && GetAvailable(g, st, Root(g)).picked.None?
    ensures var st' := GetAvailable(g, st, Root(g)).st;
            && Advances(g, nodes, st, run, st', run', pool)
            && (pool == [] ==> Remaining(st') < Remaining(st) || (st' == st && AtRest(g, st)))
  {
    var root := Root(g);
    run' := Advance(g, run, Pick);
    RootOpens(g, st);
    GetAvailableKeeps(g, st, root);
    var st' := GetAvailable(g, st, root).st;
    PoolCalm(g, nodes, st, st', pool);
    ForwardDrops(g, st, st');
  }

  /** The executor picks an action, marks it RUNNING and hands it to the pool. */
  lemma {:induction false} StartStep(g: Graph, nodes: seq<Action>, st: Statuses, run: seq<System>, pool: seq<Action>)
    returns (run': seq<System>)
    requires Executing(g, nodes, st, run, pool) && GetAvailable(g, st, Root(g)).picked.Some?
    ensures var c := GetAvailable(g, st, Root(g));
            var st' := SetStatus(g, c.st, c.picked.value, Running);
            && Advances(g, nodes, st, run, st', run', pool + [nodes[c.picked.value]])
            && Remaining(st') < Remaining(st)
  {
    var c := GetAvailable(g, st, Root(g));
    var i := c.picked.value;
    run' := Advance(g, run, Pick);
    RootOpens(g, st);
    GetAvailableKeeps(g, st, Root(g));
    PoolCalm(g, nodes, st, c.st, pool);
    SetStatusWrites(g, c.st, i, Running);
    assert SetStatus(g, c.st, i, Running) == c.st[i := Running];
    MarkKeeps(g, Last(run'));
    ForwardDrops(g, c.st, c.st[i := Running]);
    PoolWith(nodes, c.st, pool, i);
    run' := Advance(g, run', Mark);
  }

  lemma {:induction false} ResultOf(g: Graph, nodes: seq<Action>, st: Statuses, run: seq<System>, pool: seq<Action>)
    requires Executing(g, nodes, st, run, pool)
    ensures IsRun(g, run) && Last(run).st == st
    ensures st[Root(g)] == Successful ==> forall i :: 0 <= i < |nodes| ==> st[i] == Successful
    ensures st[Root(g)] == Failed ==> exists i :: 0 <= i < |nodes| && !nodes[i].isGroup && st[i] == Failed
  {
    RunOutcome(g, run, |run| - 1);
    if st[Root(g)] == Failed {
      assert Bad(st[Root(g)]);
      var i :| 0 <= i < Size(g) && !g.nodes[i].isGroup && st[i] == Failed;
      assert !nodes[i].isGroup;
    }
  }

  lemma {:induction false} PlacesDiffer(g: Graph, nodes: seq<Action>)
    requires Represents(g, nodes)
    ensures forall x, y :: 0 <= x < y < |nodes| ==> nodes[x] != nodes[y]
    ensures forall i :: 0 <= i < |nodes| ==> nodes[i].isGroup == g.nodes[i].isGroup
  {
    forall i | 0 <= i < |nodes| ensures nodes[i].isGroup == g.nodes[i].isGroup {
      assert Shape(g, nodes, i);
    }
  }

  // ------------------------------------------------------------------------
  // The steps, on the objects
  // ------------------------------------------------------------------------

  /** Worker number `n` of the pool runs its callable to the end. */
  method WorkerEnds(pool: seq<Action>, n: nat, ok: bool, ghost g: Graph, ghost nodes: seq<Action>, ghost run: seq<System>)
    returns (rest: seq<Action>, ghost run': seq<System>)
    requires Represents(g, nodes) && Executing(g, nodes, Stored(nodes), run, pool) && n < |pool|
    modifies nodes`status
    ensures Advances(g, nodes, old(Stored(nodes)), run, Stored(nodes), run', rest)
    ensures |rest| == |pool| - 1 && Remaining(Stored(nodes)) < old(Remaining(Stored(nodes)))
  {
    ghost var i;
    i, run' := EndStep(g, nodes, Stored(nodes), run, pool, n, ok);
    var illegal := pool[n].Apply(ok, g, nodes, i);
    rest := pool[..n] + pool[n + 1..];
  }

  /**
    One turn of the loop after `isDone` answered no. Sleeping when there is nothing to
    start is taken to last until some worker has ended, if any is at work.
  */
  method Turn(root: Action, pool: seq<Action>, ghost g: Graph, ghost nodes: seq<Action>, ghost run: seq<System>)
    returns (pool': seq<Action>, ghost run': seq<System>)
    requires Represents(g, nodes) && Executing(g, nodes, Stored(nodes), run, pool)
    requires root == nodes[Root(g)]
    modifies nodes`status
    ensures Advances(g, nodes, old(Stored(nodes)), run, Stored(nodes), run', pool')
    ensures Remaining(Stored(nodes)) < old(Remaining(Stored(nodes))) || AtRest(g, Stored(nodes))
    ensures old(Idle(g, Stored(nodes))) ==> Stored(nodes) == old(Stored(nodes))
  {
    hide Executing, GetAvailable, SetStatus, WellFormed, AtRest, Idle;
    ghost var st := Stored(nodes);
    if Idle(g, st) {
      IdleStays(g, st);
      IdlePool(g, nodes, st, run, pool);
    }
    if GetAvailable(g, st, Root(g)).picked.Some? {
      run' := StartStep(g, nodes, st, run, pool);
    } else {
      run' := NullStep(g, nodes, st, run, pool);
    }
    var a, picked := root.GetAvailableAction(g, nodes, Root(g));
    if a != null {
      a.SetStatus(Running, g, nodes, picked.value);
      pool' := pool + [a];
    } else if pool != [] {
      var n: nat :| n < |pool|;
      var ok: bool := *;
      pool', run' := WorkerEnds(pool, n, ok, g, nodes, run');
    } else {
      pool' := pool;
    }
  }

  /** Any number of workers end, each well or badly. */
  method WorkersEnd(pool: seq<Action>, ghost g: Graph, ghost nodes: seq<Action>, ghost run: seq<System>)
    returns (pool': seq<Action>, ghost run': seq<System>)
    requires Represents(g, nodes) && Executing(g, nodes, Stored(nodes), run, pool)
    modifies nodes`status
    ensures Advances(g, nodes, old(Stored(nodes)), run, Stored(nodes), run', pool')
    ensures pool == [] ==> Stored(nodes) == old(Stored(nodes))
  {
    pool', run' := pool, run;
    var more: bool := *;
    while more && pool' != []
      invariant pool == [] ==> pool' == [] && Stored(nodes) == old(Stored(nodes))
      invariant Advances(g, nodes, old(Stored(nodes)), run, Stored(nodes), run', pool')
      decreases |pool'|
    {
      var n: nat :| n < |pool'|;
      var ok: bool := *;
      pool', run' := WorkerEnds(pool', n, ok, g, nodes, run');
      more := *;
    }
  }

  /** The condition of the loop. */
  method AskWhetherDone(root: Action, pool: seq<Action>, ghost g: Graph, ghost nodes: seq<Action>, ghost run: seq<System>)
    returns (done: bool, ghost run': seq<System>)
    requires Represents(g, nodes) && Executing(g, nodes, Stored(nodes), run, pool) && root == nodes[Root(g)]
    modifies nodes`status
    ensures Advances(g, nodes, old(Stored(nodes)), run, Stored(nodes), run', pool)
    ensures done ==> root.status in {Successful, Failed}
    ensures old(root.status) in {Successful, Failed} ==> done
    ensures old(Idle(g, Stored(nodes))) ==> Stored(nodes) == old(Stored(nodes)) && !done
  {
    if Idle(g, Stored(nodes)) {
      IdleStays(g, Stored(nodes));
    }
    run' := IsDoneStep(g, nodes, Stored(nodes), run, pool);
    done := root.IsDone(g, nodes, Root(g));
  }

  /** Once round the loop, and the condition again. */
  method Round(root: Action, pool: seq<Action>, ghost g: Graph, ghost nodes: seq<Action>, ghost run: seq<System>)
    returns (pool': seq<Action>, done: bool, ghost run': seq<System>)
    requires Represents(g, nodes) && Executing(g, nodes, Stored(nodes), run, pool) && root == nodes[Root(g)]
    modifies nodes`status
    ensures Executing(g, nodes, Stored(nodes), run', pool') && run <= run'
    ensures done ==> root.status in {Successful, Failed}
    ensures Remaining(Stored(nodes)) < old(Remaining(Stored(nodes)))
         || (Remaining(Stored(nodes)) == old(Remaining(Stored(nodes))) && (done || Idle(g, Stored(nodes))))
    ensures old(Idle(g, Stored(nodes))) ==> Idle(g, Stored(nodes)) && !done
  {
    hide Executing, AtRest, WellFormed;
    if Idle(g, Stored(nodes)) {
      IdlePool(g, nodes, Stored(nodes), run, pool);
    }
    pool', run' := WorkersEnd(pool, g, nodes, run);
    pool', run' := Turn(root, pool', g, nodes, run');
    done, run' := AskWhetherDone(root, pool', g, nodes, run');
  }

  /**
    `execute`, with workers that end at any time in any order, for at most so many turns of its loop.
    What it did is a run of the transition system. After three turns for each action the plan is
    SUCCESSFUL or FAILED, or the loop goes round for ever because some action waits in vain.
  */
  method ExecuteTurns(root: Action, turns: nat, ghost g: Graph, ghost nodes: seq<Action>) returns (done: bool, ghost run: seq<System>)
    requires Represents(g, nodes) && Tame(g) && root == nodes[Root(g)]
    requires forall i :: 0 <= i < |nodes| ==> nodes[i].status == Pending
    modifies nodes`status
    ensures IsRun(g, run) && Last(run).st == Stored(nodes)
    ensures done ==> root.status in {Successful, Failed}
    ensures !done && turns > 3 * |nodes| ==> Idle(g, Stored(nodes)) && exists a :: WaitsInVain(g, Stored(nodes), a)
    ensures root.status == Successful ==> forall i :: 0 <= i < |nodes| ==> nodes[i].status == Successful
    ensures root.status == Failed ==> exists i :: 0 <= i < |nodes| && !nodes[i].isGroup && nodes[i].status == Failed
  {
    hide Executing, WellFormed, IsRun, Idle, WaitsInVain;
    run := StartOf(g, nodes);
    AllRemains(Stored(nodes));
    var pool: seq<Action> := [];
    done, run := AskWhetherDone(root, pool, g, nodes, run);
    var turn := 0;
    while !done && turn < turns
      invariant 0 <= turn <= turns
      invariant Executing(g, nodes, Stored(nodes), run, pool)
      invariant done ==> root.status in {Successful, Failed}
      invariant done || Idle(g, Stored(nodes)) || Remaining(Stored(nodes)) + turn <= 3 * |nodes|
    {
      pool, done, run := Round(root, pool, g, nodes, run);
      turn := turn + 1;
    }
    ResultOf(g, nodes, Stored(nodes), run, pool);
    if Idle(g, Stored(nodes)) {
      IdleInVain(g, Stored(nodes));
    }
  }

  lemma {:induction false} AllRemains(st: Statuses)
    ensures Remaining(st) <= 3 * |st|
    decreases |st|
  {
    if st != [] {
      AllRemains(st[1..]);
    }
  }

  lemma {:induction false} IdleInVain(g: Graph, st: Statuses)
    requires Idle(g, st)
    ensures exists a :: WaitsInVain(g, st, a)
  {
    hide WaitsInVain;
    StuckIff(g, st);
  }

  lemma {:induction false} NeverIdle(g: Graph, st: Statuses)
    requires WellFormed(g) && Acyclic(g) && NoHostage(g)
    ensures !Idle(g, st)
  {
    hide Acyclic, NoHostage;
    if Idle(g, st) {
      RestIsDone(g, st);
    }
  }

  /**
    The same loop without a limit: for a plan without cycles and hostages it ends, and the plan is
    then SUCCESSFUL or FAILED.
  */
  method Execute(root: Action, ghost g: Graph, ghost nodes: seq<Action>) returns (ghost run: seq<System>)
    requires Represents(g, nodes) && Tame(g) && Acyclic(g) && NoHostage(g) && root == nodes[Root(g)]
    requires forall i :: 0 <= i < |nodes| ==> nodes[i].status == Pending
    modifies nodes`status
    ensures IsRun(g, run) && Last(run).st == Stored(nodes)
    ensures root.status in {Successful, Failed}
    ensures root.status == Successful ==> forall i :: 0 <= i < |nodes| ==> nodes[i].status == Successful
    ensures root.status == Failed ==> exists i :: 0 <= i < |nodes| && !nodes[i].isGroup && nodes[i].status == Failed
  {
    hide Executing, WellFormed, IsRun, Acyclic, NoHostage, Idle;
    run := StartOf(g, nodes);
    var pool: seq<Action> := [];
    var done;
    done, run := AskWhetherDone(root, pool, g, nodes, run);
    while !done
      invariant Executing(g, nodes, Stored(nodes), run, pool)
      invariant done ==> root.status in {Successful, Failed}
      decreases Remaining(Stored(nodes)), if done then 0 else 1
    {
      pool, done, run := Round(root, pool, g, nodes, run);
      NeverIdle(g, Stored(nodes));
    }
    ResultOf(g, nodes, Stored(nodes), run, pool);
  }
}
