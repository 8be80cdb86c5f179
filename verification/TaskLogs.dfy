/**
  Logs of asynchronous tasks: tasks append events to queues of their own while a
  waiting thread polls the queue and hands the events to listeners.
*/
module TaskLogs {
  import opened ActionGraph

  type Event = string
  type Logs = map<Id, seq<Event>>

  /** The queue of a task, which is empty if there is none. */
  function Queue(logs: Logs, t: Id): seq<Event> {
    if t in logs then logs[t] else []
  }

  /** The queues after an event was appended, and after a queue was polled. */
  function Appended(logs: Logs, t: Id, event: Event): Logs {
    logs[t := Queue(logs, t) + [event]]
  }

  function Polled(logs: Logs, t: Id): Logs {
    if t in logs then logs[t := []] else logs
  }

  /** The appender and its static fields. */
  class LocalTaskLogs {
    var idCounter: nat
    var logs: Logs

    constructor ()
      ensures idCounter == 0 && logs == map[]
    {
      idCounter, logs := 0, map[];
    }

    /** `createID` */
    method CreateId() returns (id: Id)
      modifies this`idCounter
      ensures id == old(idCounter) && idCounter == id + 1
    {
      id := idCounter;
      idCounter := idCounter + 1;
    }

    /** `append`, for an event of some task or of none. */
    method Append(taskId: Option<Id>, event: Event)
      modifies this`logs
      ensures taskId.None? ==> logs == old(logs)
      ensures taskId.Some? ==> logs == Appended(old(logs), taskId.value, event)
    {
      if taskId.Some? {
        var t := taskId.value;
        if t !in logs {
          logs := logs[t := []];
        }
        logs := logs[t := logs[t] + [event]];
      }
    }

    /** `pollLogs` */
    method PollLogs(taskId: Id) returns (result: seq<Event>)
      modifies this`logs
      ensures result == Queue(old(logs), taskId)
      ensures logs == Polled(old(logs), taskId)
    {
      if taskId !in logs {
        return [];
      }
      result := logs[taskId];
      logs := logs[taskId := []];
    }

    /** `deleteLogs`, which only warns of events that nobody polled. */
    method DeleteLogs(taskId: Id) returns (warned: bool)
      modifies this`logs
      ensures logs == old(logs) - {taskId} && warned == (Queue(old(logs), taskId) != [])
    {
      warned := false;
      if taskId in logs {
        warned := logs[taskId] != [];
        logs := logs - {taskId};
      }
    }
  }

  // ------------------------------------------------------------------------
  // Tasks and waiting threads
  // ------------------------------------------------------------------------

  /** Where `waitFor` is: about to poll, about to look at `isDone`, or back. */
  datatype Waiter = Polling | Checking(hasLogs: bool) | Returned

  /** A submitted task: what it appended so far, what its listeners were given, and how far `waitFor` got. */
  datatype Task = Task(appended: seq<Event>, given: seq<Event>, done: bool, waiter: Waiter)

  datatype System = System(next: Id, logs: Logs, tasks: map<Id, Task>)

  datatype Move = Submit | Append(t: Id, event: Event) | Finish(t: Id) | Poll(t: Id) | Check(t: Id)

  predicate Enabled(s: System, m: Move) {
    match m
    case Submit => true
    case Append(t, _) => t in s.tasks && !s.tasks[t].done
    case Finish(t) => t in s.tasks && !s.tasks[t].done
    case Poll(t) => t in s.tasks && s.tasks[t].waiter.Polling?
    case Check(t) => t in s.tasks && s.tasks[t].waiter.Checking?
  }

  function Next(s: System, m: Move): System
    requires Enabled(s, m)
  {
    match m
    case Submit =>
      System(s.next + 1, s.logs, s.tasks[s.next := Task([], [], false, Polling)])
    case Append(t, event) =>
      var task := s.tasks[t];
      s.(logs := Appended(s.logs, t, event), tasks := s.tasks[t := task.(appended := task.appended + [event])])
    case Finish(t) =>
      s.(tasks := s.tasks[t := s.tasks[t].(done := true)])
    case Poll(t) =>
      var task, events := s.tasks[t], Queue(s.logs, t);
      var polled := task.(given := task.given + events, waiter := Checking(events != []));
      s.(logs := Polled(s.logs, t), tasks := s.tasks[t := polled])
    case Check(t) =>
      var task := s.tasks[t];
      s.(tasks := s.tasks[t := task.(waiter := if task.done && !task.waiter.hasLogs then Returned else Polling)])
  }

  const START := System(0, map[], map[])

  function AllButLast(moves: seq<Move>): seq<Move>
    requires moves != []
  {
    moves[..|moves| - 1]
  }

  /** The moves can be made one after the other. */
  predicate IsRun(moves: seq<Move>)
    decreases |moves|, 0
  {
    moves != [] ==> IsRun(AllButLast(moves)) && Enabled(After(AllButLast(moves)), moves[|moves| - 1])
  }

  /** Where the moves lead. */
  function After(moves: seq<Move>): System
    requires IsRun(moves)
    decreases |moves|, 1
  {
    if moves == [] then START else Next(After(AllButLast(moves)), moves[|moves| - 1])
  }

  // ------------------------------------------------------------------------
  // What a run says about one task
  // ------------------------------------------------------------------------

  /** What the task appended in these moves. */
  function Words(moves: seq<Move>, t: Id): seq<Event> {
    if moves == [] then []
    else
      var last := moves[|moves| - 1];
      Words(AllButLast(moves), t) + (if last.Append? && last.t == t then [last.event] else [])
  }

  /** The moves after the last poll of the task, or all if it was never polled. */
  function SinceLastPoll(moves: seq<Move>, t: Id): seq<Move> {
    if moves == [] || moves[|moves| - 1] == Poll(t) then []
    else SinceLastPoll(AllButLast(moves), t) + [moves[|moves| - 1]]
  }

  lemma {:induction false} WordsMore(moves: seq<Move>, m: Move, t: Id)
    ensures Words(moves + [m], t) == Words(moves, t) + (if m.Append? && m.t == t then [m.event] else [])
  {
    assert AllButLast(moves + [m]) == moves;
  }

  /** There are no words exactly if nothing was appended. */
  lemma {:induction false} NoWords(moves: seq<Move>, t: Id)
    ensures Words(moves, t) == [] <==> forall event :: Append(t, event) !in moves
    decreases |moves|
  {
    if moves != [] {
      var last := moves[|moves| - 1];
      NoWords(AllButLast(moves), t);
      assert moves == AllButLast(moves) + [last];
      if last.Append? && last.t == t {
        assert Append(t, last.event) in moves;
      }
    }
  }

  /** The task appended `words`, of which its queue holds `rest` and its listeners were given what came before. */
  ghost predicate Agrees(s: System, t: Id, words: seq<Event>, rest: seq<Event>) {
    && Queue(s.logs, t) == rest
    && (t in s.logs ==> t in s.tasks)
    && (t !in s.tasks ==> words == [])
    && (t in s.tasks ==>
          var task := s.tasks[t];
          && t < s.next && task.appended == words && task.given + rest == words
          && (task.waiter.Returned? ==> task.done))
  }

  ghost predicate TaskInv(moves: seq<Move>, t: Id)
    requires IsRun(moves)
  {
    Agrees(After(moves), t, Words(moves, t), Words(SinceLastPoll(moves, t), t))
  }

  /** The event that a move appends for a task. */
  function Word(m: Move, t: Id): seq<Event> {
    if m.Append? && m.t == t then [m.event] else []
  }

  lemma {:induction false} MoveKeeps(s: System, m: Move, t: Id, words: seq<Event>, rest: seq<Event>)
    requires Enabled(s, m) && Agrees(s, t, words, rest)
    requires s.next !in s.tasks && s.next !in s.logs
    ensures Agrees(Next(s, m), t, words + Word(m, t), if m == Poll(t) then [] else rest + Word(m, t))
  {
    if m.Append? && m.t == t {
      var task := s.tasks[t];
      assert task.given + (rest + [m.event]) == task.given + rest + [m.event];
    } else {
      assert words + [] == words && rest + [] == rest;
    }
  }

  lemma {:induction false} LastMove(moves: seq<Move>, t: Id)
    requires moves != [] && IsRun(moves)
    ensures var before, m := AllButLast(moves), moves[|moves| - 1];
            && IsRun(before) && Enabled(After(before), m) && After(moves) == Next(After(before), m)
            && Words(moves, t) == Words(before, t) + Word(m, t)
            && Words(SinceLastPoll(moves, t), t) ==
                 if m == Poll(t) then [] else Words(SinceLastPoll(before, t), t) + Word(m, t)
  {
    WordsMore(SinceLastPoll(AllButLast(moves), t), moves[|moves| - 1], t);
  }

  /** Ids are given out once. */
  lemma {:induction false} NextIsNew(moves: seq<Move>)
    requires IsRun(moves)
    ensures forall t :: t in After(moves).tasks || t in After(moves).logs ==> t < After(moves).next
    decreases |moves|
  {
    if moves != [] {
      hide Words, SinceLastPoll, Next, Enabled;
      var before := AllButLast(moves);
      LastMove(moves, 0);
      NextIsNew(before);
      MoveIsNew(After(before), moves[|moves| - 1]);
    }
  }

  lemma {:induction false} MoveIsNew(s: System, m: Move)
    requires Enabled(s, m) && forall t :: t in s.tasks || t in s.logs ==> t < s.next
    ensures forall t :: t in Next(s, m).tasks || t in Next(s, m).logs ==> t < Next(s, m).next
  {
  }

  lemma {:induction false} RunKeeps(moves: seq<Move>, t: Id)
    requires IsRun(moves)
    ensures TaskInv(moves, t)
    decreases |moves|
  {
    if moves != [] {
      hide Agrees, Words, SinceLastPoll, Next, Enabled;
      var before := AllButLast(moves);
      LastMove(moves, t);
      RunKeeps(before, t);
      NextIsNew(before);
      MoveKeeps(After(before), moves[|moves| - 1], t, Words(before, t), Words(SinceLastPoll(before, t), t));
    }
  }

  // ------------------------------------------------------------------------
  // Main results
  // ------------------------------------------------------------------------

  /** Between a poll and the next look at `isDone`, what the waiting thread knows is whether the poll found anything. */
  lemma {:induction false} KnowsThePoll(before: seq<Move>, between: seq<Move>, t: Id)
    requires IsRun(before + [Poll(t)] + between) && Check(t) !in between
    ensures IsRun(before) && IsRun(before + [Poll(t)])
    ensures t in After(before + [Poll(t)] + between).tasks
    ensures After(before + [Poll(t)] + between).tasks[t].waiter == Checking(Queue(After(before).logs, t) != [])
    decreases |between|
  {
    var polled := before + [Poll(t)];
    var moves := polled + between;
    if between == [] {
      assert moves == polled && AllButLast(polled) == before && polled[|polled| - 1] == Poll(t);
    } else {
      var rest, last := AllButLast(between), between[|between| - 1];
      assert AllButLast(moves) == polled + rest && moves[|moves| - 1] == last;
      assert last in between && last != Check(t);
      KnowsThePoll(before, rest, t);
      NextIsNew(polled + rest);
    }
  }

  /**
    `waitFor` comes back from a look at `isDone` exactly if the task was done then and the last poll had found
    nothing; otherwise it polls again.
  */
  lemma {:induction false} ReturnsIff(before: seq<Move>, between: seq<Move>, t: Id)
    requires IsRun(before + [Poll(t)] + between + [Check(t)]) && Check(t) !in between
    ensures IsRun(before) && IsRun(before + [Poll(t)] + between)
    ensures var earlier, now := After(before + [Poll(t)] + between), After(before + [Poll(t)] + between + [Check(t)]);
            && t in earlier.tasks && t in now.tasks
            && now.tasks[t].waiter == if earlier.tasks[t].done && Queue(After(before).logs, t) == [] then Returned else Polling
  {
    var moves := before + [Poll(t)] + between;
    var all := moves + [Check(t)];
    assert AllButLast(all) == moves && all[|all| - 1] == Check(t);
    KnowsThePoll(before, between, t);
  }

  /**
    Conservation: at any time what the listeners of a task were given, followed by what its
    queue still holds, is exactly what that task appended, in that order.
  */
  lemma {:induction false} LogsAreConserved(moves: seq<Move>, t: Id)
    requires IsRun(moves) && t in After(moves).tasks
    ensures After(moves).tasks[t].given + Queue(After(moves).logs, t) == Words(moves, t)
  {
    RunKeeps(moves, t);
  }

  /**
    When `waitFor` is back the task is done; and its listeners have everything it appended if and only if
    it appended nothing after the last poll.
  */
  lemma {:induction false} WaitForDelivers(moves: seq<Move>, t: Id)
    requires IsRun(moves) && t in After(moves).tasks && After(moves).tasks[t].waiter == Returned
    ensures After(moves).tasks[t].done
    ensures After(moves).tasks[t].given + Words(SinceLastPoll(moves, t), t) == Words(moves, t)
    ensures After(moves).tasks[t].given == Words(moves, t) <==> forall event :: Append(t, event) !in SinceLastPoll(moves, t)
  {
    RunKeeps(moves, t);
    NoWords(SinceLastPoll(moves, t), t);
    var given, rest := After(moves).tasks[t].given, Words(SinceLastPoll(moves, t), t);
    assert |given + rest| == |given| + |rest|;
    assert rest == [] ==> given + rest == given;
  }

  /** A done task appends no more. */
  lemma {:induction false} DoneIsSilent(moves: seq<Move>, t: Id)
    requires IsRun(moves) && t in After(moves).tasks && After(moves).tasks[t].done && Finish(t) !in SinceLastPoll(moves, t)
    ensures forall event :: Append(t, event) !in SinceLastPoll(moves, t)
    decreases |moves|
  {
    var m := moves[|moves| - 1];
    if m != Poll(t) {
      hide Words;
      LastMove(moves, t);
      NextIsNew(AllButLast(moves));
      DoneIsSilent(AllButLast(moves), t);
    }
  }

  /** So everything is delivered if the task was finished before the last poll. */
  lemma {:induction false} FinishedBeforeLastPoll(moves: seq<Move>, t: Id)
    requires IsRun(moves) && t in After(moves).tasks && After(moves).tasks[t].waiter == Returned
    requires Finish(t) !in SinceLastPoll(moves, t)
    ensures After(moves).tasks[t].given == Words(moves, t)
  {
    WaitForDelivers(moves, t);
    DoneIsSilent(moves, t);
  }

  lemma {:induction false} OneMore(moves: seq<Move>, m: Move)
    requires IsRun(moves) && Enabled(After(moves), m)
    ensures IsRun(moves + [m]) && After(moves + [m]) == Next(After(moves), m)
    ensures Words(moves + [m], 0) == Words(moves, 0) + Word(m, 0)
  {
    assert AllButLast(moves + [m]) == moves;
  }

  /** What a task appends between the last poll and the look at `isDone` is lost. */
  lemma {:induction false} LastWordsAreLost() returns (moves: seq<Move>)
    ensures IsRun(moves) && 0 in After(moves).tasks && Words(moves, 0) == ["last words"]
    ensures After(moves).tasks[0].waiter == Returned && After(moves).tasks[0].given == []
  {
    hide IsRun, After, Words;
    assert IsRun([]) && After([]) == START && Words([], 0) == [] by { Nothing(); }
    moves := [];
    OneMore(moves, Submit);
    moves := moves + [Submit];
    OneMore(moves, Poll(0));
    moves := moves + [Poll(0)];
    OneMore(moves, Append(0, "last words"));
    moves := moves + [Append(0, "last words")];
    OneMore(moves, Finish(0));
    moves := moves + [Finish(0)];
    OneMore(moves, Check(0));
    moves := moves + [Check(0)];
  }

  lemma {:induction false} Nothing()
    ensures IsRun([]) && After([]) == START && Words([], 0) == []
  {
  }

  /** Every task gets an id of its own. */
  lemma {:induction false} IdsAreFresh(moves: seq<Move>)
    requires IsRun(moves)
    ensures After(moves).next !in After(moves).tasks && After(moves).next !in After(moves).logs
  {
    NextIsNew(moves);
  }
}
