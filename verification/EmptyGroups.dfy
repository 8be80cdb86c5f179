/**
  Tame plans are exactly the plans whose order the engine keeps: an empty group between two
  items of a sequence lets the second start while the first still runs.
*/
module EmptyGroups {
  import opened ActionGraph
  import opened ActionInvariant
  import opened ActionReading
  import opened ActionRuns
  import opened ActionProgress
  import opened ActionStuck
  import opened ActionTree
  import opened PlanOrder
  import opened PlanNumbers

  // ------------------------------------------------------------------------
  // States without a failure, in any graph of a plan
  // ------------------------------------------------------------------------

  ghost predicate SomeRunning(g: Graph, st: Statuses, i: Id)
    requires Fits(g, st) && i < Size(g)
  {
    exists b :: 0 <= b < Size(g) && !g.nodes[b].isGroup && Under(g, b, i) && st[b] == Running
  }

  ghost predicate SomePending(g: Graph, st: Statuses, i: Id)
    requires Fits(g, st) && i < Size(g)
  {
    exists b :: 0 <= b < Size(g) && !g.nodes[b].isGroup && Under(g, b, i) && st[b] == Pending
  }

  /** Nothing failed, and a group is stored as RUNNING only around an action that runs. */
  ghost predicate Unharmed(g: Graph, st: Statuses) {
    && Fits(g, st)
    && forall i :: 0 <= i < Size(g) ==>
         g.nodes[i].computed == [] && !Bad(st[i]) && (g.nodes[i].isGroup && st[i] == Running ==> SomeRunning(g, st, i))
  }

  ghost predicate SameSingles(g: Graph, st: Statuses, st': Statuses)
    requires Fits(g, st)
  {
    |st'| == |st| && forall b :: 0 <= b < Size(g) && !g.nodes[b].isGroup ==> st'[b] == st[b]
  }

  /** What asking finds out. */
  ghost function Answer(g: Graph, st: Statuses, i: Id): Status
    requires Fits(g, st) && i < Size(g)
  {
    if SomeRunning(g, st, i) then Running else if AllEnded(g, st, i) then Successful else Pending
  }

  lemma {:induction false} SameAnswer(g: Graph, st: Statuses, st': Statuses, i: Id)
    requires Fits(g, st) && SameSingles(g, st, st') && i < Size(g)
    ensures SomeRunning(g, st', i) == SomeRunning(g, st, i) && SomePending(g, st', i) == SomePending(g, st, i)
    ensures AllEnded(g, st', i) == AllEnded(g, st, i) && Answer(g, st', i) == Answer(g, st, i)
  {
  }

  lemma {:induction false} BelowKid(g: Graph, b: Id, i: Id, k: Id)
    requires WellFormed(g) && b < Size(g) && i < Size(g) && k in g.nodes[i].kids && k < Size(g) && Under(g, b, k)
    ensures Under(g, b, i)
  {
    assert NodeOk(g, i);
    UnderThen(g, b, k);
  }

  /** The answer of a group from those of its members. */
  lemma {:induction false} AnswerOfMembers(g: Graph, st: Statuses, i: Id)
    requires Fits(g, st) && i < Size(g) && g.nodes[i].isGroup
    ensures SomeRunning(g, st, i) <==> exists a :: 0 <= a < |g.nodes[i].kids| && SomeRunning(g, st, Kid(g, i, a))
    ensures AllEnded(g, st, i) <==> forall a :: 0 <= a < |g.nodes[i].kids| ==> AllEnded(g, st, Kid(g, i, a))
  {
    forall a | 0 <= a < |g.nodes[i].kids|
      ensures SomeRunning(g, st, Kid(g, i, a)) ==> SomeRunning(g, st, i)
      ensures AllEnded(g, st, i) ==> AllEnded(g, st, Kid(g, i, a))
    {
      if SomeRunning(g, st, Kid(g, i, a)) {
        var b :| 0 <= b < Size(g) && !g.nodes[b].isGroup && Under(g, b, Kid(g, i, a)) && st[b] == Running;
        BelowKid(g, b, i, Kid(g, i, a));
      }
      if AllEnded(g, st, i) {
        AllEndedKid(g, st, i, a);
      }
    }
    forall b | 0 <= b < Size(g) && !g.nodes[b].isGroup && Under(g, b, i)
      ensures exists a :: 0 <= a < |g.nodes[i].kids| && Under(g, b, Kid(g, i, a))
    {
      var a := PathKid(g, b, i);
    }
    if SomeRunning(g, st, i) {
      var b :| 0 <= b < Size(g) && !g.nodes[b].isGroup && Under(g, b, i) && st[b] == Running;
      var a :| 0 <= a < |g.nodes[i].kids| && Under(g, b, Kid(g, i, a));
      assert SomeRunning(g, st, Kid(g, i, a));
    }
    if forall a :: 0 <= a < |g.nodes[i].kids| ==> AllEnded(g, st, Kid(g, i, a)) {
      forall b | 0 <= b < Size(g) && !g.nodes[b].isGroup && Under(g, b, i) ensures st[b] == Successful {
        var a :| 0 <= a < |g.nodes[i].kids| && Under(g, b, Kid(g, i, a));
        assert AllEnded(g, st, Kid(g, i, a));
      }
    }
  }

  /** A pass over `i` that leaves the actions as they are. */
  ghost predicate Harmless(g: Graph, st: Statuses, st': Statuses)
    requires Fits(g, st)
  {
    Unharmed(g, st') && SameSingles(g, st, st')
  }

  lemma {:induction false} WriteHarmless(g: Graph, st: Statuses, i: Id, s: Status)
    requires Unharmed(g, st) && i < Size(g) && g.nodes[i].isGroup && s in {Pending, Running, Successful}
    requires s == Running ==> SomeRunning(g, st, i)
    ensures SetStatus(g, st, i, s) == st[i := s] && Harmless(g, st, st[i := s])
  {
    var st' := st[i := s];
    forall x | 0 <= x < Size(g) && g.nodes[x].isGroup && st'[x] == Running ensures SomeRunning(g, st', x) {
      SameAnswer(g, st, st', x);
      assert SomeRunning(g, st, x);
    }
  }

  lemma {:induction false} Asked(g: Graph, st: Statuses, i: Id)
    requires Unharmed(g, st) && i < Size(g)
    ensures Harmless(g, st, GetStatus(g, st, i).st)
    ensures forall x :: i < x < Size(g) ==> GetStatus(g, st, i).st[x] == st[x]
    ensures GetStatus(g, st, i).status == Answer(g, st, i)
    decreases i, 1, 0
  {
    if g.nodes[i].isGroup {
      AskedMembers(g, st, i, 0, NothingSeen);
    } else {
      OnlyItself(g, st, i);
    }
  }

  lemma {:induction false} OnlyItself(g: Graph, st: Statuses, i: Id)
    requires Unharmed(g, st) && i < Size(g) && !g.nodes[i].isGroup
    ensures Answer(g, st, i) == st[i]
    ensures SomePending(g, st, i) <==> st[i] == Pending
  {
    assert Under(g, i, i);
    forall b | 0 <= b < Size(g) && Under(g, b, i) ensures b == i {
      if b != i {
        AroundIsGroup(g, b, i);
      }
    }
    assert !Bad(st[i]);
  }

  lemma {:induction false} AskedMembers(g: Graph, st: Statuses, i: Id, pos: nat, m: Summary)
    requires Fits(g, st) && Unharmed(g, st) && i < Size(g) && g.nodes[i].isGroup && pos <= |g.nodes[i].kids| && !m.hasFailed
    requires forall a :: 0 <= a < pos ==> !SomeRunning(g, st, Kid(g, i, a))
    requires m.hasNotFinished <==> exists a :: 0 <= a < pos && !AllEnded(g, st, Kid(g, i, a))
    ensures var r := Scan(g, st, i, pos, st[i], m);
            && Harmless(g, st, r.st) && r.status == Answer(g, st, i)
            && forall x :: i < x < Size(g) ==> r.st[x] == st[x]
    decreases i, 0, |g.nodes[i].kids| - pos
  {
    hide GetStatus, Unharmed, SomeRunning, AllEnded;
    if pos == |g.nodes[i].kids| {
      AnswerOfMembers(g, st, i);
      WriteHarmless(g, st, i, Outcome(m));
    } else {
      var k := Kid(g, i, pos);
      Asked(g, st, k);
      var kid := GetStatus(g, st, k);
      var m' := Seen(m, kid.status);
      AnswerOfMembers(g, st, i);
      SameAnswer(g, st, kid.st, i);
      if m'.hasFinished && m'.hasNotFinished && st[i] == Running {
        StoredRunning(g, st, i);
      } else if kid.status == Running {
        WriteHarmless(g, kid.st, i, Running);
      } else {
        forall a | 0 <= a < |g.nodes[i].kids|
          ensures SomeRunning(g, kid.st, Kid(g, i, a)) == SomeRunning(g, st, Kid(g, i, a))
          ensures AllEnded(g, kid.st, Kid(g, i, a)) == AllEnded(g, st, Kid(g, i, a))
        {
          SameAnswer(g, st, kid.st, Kid(g, i, a));
        }
        AskedMembers(g, kid.st, i, pos + 1, m');
      }
    }
  }

  lemma {:induction false} StoredRunning(g: Graph, st: Statuses, i: Id)
    requires Unharmed(g, st) && i < Size(g) && g.nodes[i].isGroup && st[i] == Running
    ensures SomeRunning(g, st, i)
  {
  }

  // ------------------------------------------------------------------------
  // The pass finds the next action
  // ------------------------------------------------------------------------

  /** Nothing to the left of `y` waits, and all that the items around it depend on has ended well. */
  ghost predicate ComesNext(g: Graph, st: Statuses, y: Id)
    requires Fits(g, st) && y < Size(g)
  {
    && (forall z, w :: 0 <= z < Size(g) && 0 <= w < z && Under(g, y, z) && g.up[w] == g.up[z] ==> !SomePending(g, st, w))
    && (forall z, d :: 0 <= z < Size(g) && d in g.nodes[z].depends && d < Size(g) && Under(g, y, z) ==> AllEnded(g, st, d))
  }

  lemma {:induction false} NextStays(g: Graph, st: Statuses, st': Statuses, y: Id)
    requires Fits(g, st) && SameSingles(g, st, st') && y < Size(g) && ComesNext(g, st, y)
    ensures ComesNext(g, st', y)
  {
    hide AllEnded, SomePending, SomeRunning;
    forall z, w | 0 <= z < Size(g) && 0 <= w < z && Under(g, y, z) && g.up[w] == g.up[z] ensures !SomePending(g, st', w) {
      SameAnswer(g, st, st', w);
    }
    forall z, d | 0 <= z < Size(g) && d in g.nodes[z].depends && d < Size(g) && Under(g, y, z) ensures AllEnded(g, st', d) {
      SameAnswer(g, st, st', d);
    }
  }

  lemma {:induction false} NotPendingAnswer(g: Graph, st: Statuses, i: Id)
    requires Unharmed(g, st) && i < Size(g) && !SomePending(g, st, i)
    ensures Answer(g, st, i) != Pending
  {
  }

  /** A pass over an action below which nothing waits finds nothing. */
  lemma {:induction false} PassesBy(g: Graph, st: Statuses, i: Id)
    requires Fits(g, st) && Unharmed(g, st) && i < Size(g) && !SomePending(g, st, i)
    ensures GetAvailable(g, st, i).picked.None? && Harmless(g, st, GetAvailable(g, st, i).st)
    decreases i, 1, 0
  {
    hide GetStatus, Unharmed, SomePending, SomeRunning, AllEnded, Answer;
    Asked(g, st, i);
    NotPendingAnswer(g, st, i);
    var own := GetStatus(g, st, i);
    assert IsReady(g, st, i) == Readiness(own.st, false);
    if g.nodes[i].isGroup {
      Asked(g, own.st, i);
      var again := GetStatus(g, own.st, i);
      SameAnswer(g, st, again.st, i);
      PassesByMembers(g, again.st, i, 0);
    }
  }

  lemma {:induction false} MemberNotPending(g: Graph, st: Statuses, i: Id, a: nat)
    requires Fits(g, st) && i < Size(g) && a < |g.nodes[i].kids| && !SomePending(g, st, i)
    ensures !SomePending(g, st, Kid(g, i, a))
  {
    if SomePending(g, st, Kid(g, i, a)) {
      var b :| 0 <= b < Size(g) && !g.nodes[b].isGroup && Under(g, b, Kid(g, i, a)) && st[b] == Pending;
      BelowKid(g, b, i, Kid(g, i, a));
    }
  }

  lemma {:induction false} PassesByMembers(g: Graph, st: Statuses, i: Id, pos: nat)
    requires Fits(g, st) && Unharmed(g, st) && i < Size(g) && g.nodes[i].isGroup && pos <= |g.nodes[i].kids|
    requires !SomePending(g, st, i)
    ensures FirstAvailable(g, st, i, pos).picked.None? && Harmless(g, st, FirstAvailable(g, st, i, pos).st)
    decreases i, 0, |g.nodes[i].kids| - pos
  {
    hide GetStatus, Unharmed, SomePending, SomeRunning, AllEnded, Answer;
    if pos < |g.nodes[i].kids| {
      var k := Kid(g, i, pos);
      MemberNotPending(g, st, i, pos);
      PassesBy(g, st, k);
      var c := GetAvailable(g, st, k);
      SameAnswer(g, st, c.st, i);
      PassesByMembers(g, c.st, i, pos + 1);
    }
  }

  /** The test of `isReady`, when everything has ended well. */
  lemma {:induction false} AllMet(g: Graph, st: Statuses, i: Id, pos: nat)
    requires Fits(g, st) && Unharmed(g, st) && i < Size(g) && pos <= |Dependencies(g.nodes[i])|
    requires forall d :: d in Dependencies(g.nodes[i]) && d < Size(g) ==> AllEnded(g, st, d)
    ensures CheckAll(g, st, i, pos, true).ready && Harmless(g, st, CheckAll(g, st, i, pos, true).st)
    decreases |Dependencies(g.nodes[i])| - pos
  {
    hide GetStatus, Unharmed, SomePending, SomeRunning, AllEnded, Answer;
    if pos < |Dependencies(g.nodes[i])| {
      var d := Dep(g, i, pos);
      var one := AskEndedWell(g, st, d);
      var two := AskEndedWell(g, one, d);
      var three := AskEndedWell(g, two, d);
      assert CheckOne(g, st, i, d) == Reading(three, Successful);
      forall e | e in Dependencies(g.nodes[i]) && e < Size(g) ensures AllEnded(g, three, e) {
        SameAnswer(g, st, three, e);
      }
      AllMet(g, three, i, pos + 1);
    }
  }

  lemma {:induction false} AskEndedWell(g: Graph, st: Statuses, d: Id) returns (st': Statuses)
    requires Fits(g, st) && Unharmed(g, st) && d < Size(g) && AllEnded(g, st, d)
    ensures GetStatus(g, st, d) == Reading(st', Successful) && Harmless(g, st, st') && AllEnded(g, st', d)
  {
    hide GetStatus;
    Asked(g, st, d);
    st' := GetStatus(g, st, d).st;
    SameAnswer(g, st, st', d);
  }

  lemma {:induction false} WaitingAnswer(g: Graph, st: Statuses, y: Id, i: Id)
    requires Unharmed(g, st) && y < Size(g) && i < Size(g) && Under(g, y, i) && !g.nodes[y].isGroup && st[y] == Pending
    ensures Answer(g, st, i) in {Pending, Running}
  {
  }

  /** While `y` is next, the pass over anything around it returns it. */
  lemma {:induction false} PassFinds(g: Graph, st: Statuses, i: Id, y: Id)
    requires Fits(g, st) && Unharmed(g, st) && i < Size(g) && y < Size(g) && Under(g, y, i)
    requires !g.nodes[y].isGroup && st[y] == Pending && ComesNext(g, st, y)
    ensures GetAvailable(g, st, i).picked == Some(y) && Harmless(g, st, GetAvailable(g, st, i).st)
    decreases i, 1, 0
  {
    hide GetStatus, SomePending, SomeRunning, AllEnded, Answer, Unharmed;
    Asked(g, st, i);
    WaitingAnswer(g, st, y, i);
    var own := GetStatus(g, st, i);
    SameAnswer(g, st, own.st, i);
    NextStays(g, st, own.st, y);
    if own.status == Pending {
      DependenciesEnded(g, own.st, i, y);
      AllMet(g, own.st, i, 0);
      var ready := IsReady(g, st, i);
      if g.nodes[i].isGroup {
        NextStays(g, own.st, ready.st, y);
        var n := PathKid(g, y, i);
        MembersFind(g, ready.st, i, 0, n, y);
      } else {
        SingleAround(g, y, i);
      }
    } else {
      Asked(g, own.st, i);
      var again := GetStatus(g, own.st, i);
      NextStays(g, own.st, again.st, y);
      if g.nodes[i].isGroup {
        var n := PathKid(g, y, i);
        MembersFind(g, again.st, i, 0, n, y);
      } else {
        SingleAround(g, y, i);
        OnlyItself(g, st, i);
      }
    }
  }

  lemma {:induction false} SingleAround(g: Graph, y: Id, i: Id)
    requires WellFormed(g) && y < Size(g) && i < Size(g) && Under(g, y, i) && !g.nodes[i].isGroup
    ensures y == i
  {
    if y != i {
      AroundIsGroup(g, y, i);
    }
  }

  lemma {:induction false} DependenciesEnded(g: Graph, st: Statuses, i: Id, y: Id)
    requires Unharmed(g, st) && i < Size(g) && y < Size(g) && Under(g, y, i) && ComesNext(g, st, y)
    ensures forall d :: d in Dependencies(g.nodes[i]) && d < Size(g) ==> AllEnded(g, st, d)
  {
    assert g.nodes[i].computed == [];
    assert Dependencies(g.nodes[i]) == g.nodes[i].depends;
  }

  lemma {:induction false} MembersFind(g: Graph, st: Statuses, i: Id, pos: nat, n: nat, y: Id)
    requires Fits(g, st) && Unharmed(g, st) && i < Size(g) && pos <= n < |g.nodes[i].kids|
    requires y < Size(g) && Under(g, y, Kid(g, i, n)) && !g.nodes[y].isGroup && st[y] == Pending && ComesNext(g, st, y)
    ensures FirstAvailable(g, st, i, pos).picked == Some(y) && Harmless(g, st, FirstAvailable(g, st, i, pos).st)
    decreases i, 0, |g.nodes[i].kids| - pos
  {
    hide GetStatus, SomePending, SomeRunning, AllEnded, Answer, Unharmed;
    var k := Kid(g, i, pos);
    if pos == n {
      PassFinds(g, st, k, y);
    } else {
      assert NodeOk(g, i) && g.nodes[i].kids[pos] < g.nodes[i].kids[n];
      PassesBy(g, st, k);
      var c := GetAvailable(g, st, k);
      NextStays(g, st, c.st, y);
      MembersFind(g, c.st, i, pos + 1, n, y);
    }
  }

  // ------------------------------------------------------------------------
  // Runs from left to right
  // ------------------------------------------------------------------------

  /** The single actions below number `k` have ended well and the others wait, but for `k` itself. */
  ghost predicate UpTo(g: Graph, st: Statuses, k: nat)
    requires Fits(g, st)
  {
    forall b :: 0 <= b < Size(g) && !g.nodes[b].isGroup && b != k ==> st[b] == if b < k then Successful else Pending
  }

  /** A run that took the actions up to number `k` from left to right; `k` has status `s`. */
  ghost predicate LeftToRight(g: Graph, run: seq<System>, k: nat, s: Status) {
    && WellFormed(g) && Compact(g) && IsRun(g, run)
    && var last := Last(run);
       && last.held.None? && Unharmed(g, last.st) && UpTo(g, last.st, k)
       && (k < Size(g) && !g.nodes[k].isGroup ==> last.st[k] == s)
  }

  lemma {:induction false} LeftIsNext(g: Graph, st: Statuses, k: Id)
    requires Fits(g, st) && Compact(g) && UpTo(g, st, k) && k < Size(g)
    ensures ComesNext(g, st, k)
  {
    forall z, w | 0 <= z < Size(g) && 0 <= w < z && Under(g, k, z) && g.up[w] == g.up[z]
      ensures !SomePending(g, st, w) && AllEnded(g, st, w)
    {
      forall b | 0 <= b < Size(g) && !g.nodes[b].isGroup && Under(g, b, w) ensures st[b] == Successful {
        AroundIsNotBelow(g, b, w);
      }
    }
    forall z, d | 0 <= z < Size(g) && d in g.nodes[z].depends && d < Size(g) && Under(g, k, z) ensures AllEnded(g, st, d) {
      assert NodeOk(g, z);
    }
  }

  lemma {:induction false} NoRunning(g: Graph, st: Statuses)
    requires Unharmed(g, st) && forall b :: 0 <= b < Size(g) && !g.nodes[b].isGroup ==> st[b] != Running
    ensures forall i :: 0 <= i < Size(g) ==> st[i] != Running
  {
    forall i | 0 <= i < Size(g) ensures !SomeRunning(g, st, i) {
    }
  }

  /** The next action is picked and marked RUNNING. */
  lemma {:induction false} Starts(g: Graph, run: seq<System>, k: Id, y: Id) returns (run': seq<System>)
    requires WellFormed(g) && IsRun(g, run) && Last(run).held.None? && Unharmed(g, Last(run).st)
    requires y < Size(g) && !g.nodes[y].isGroup && Last(run).st[y] == Pending && ComesNext(g, Last(run).st, y)
    ensures IsRun(g, run') && Last(run').held.None? && Last(run').log == Last(run).log + [Started(y)]
    ensures exists st :: Harmless(g, Last(run).st, st) && Last(run').st == st[y := Running]
  {
    hide GetAvailable, Follows, Unharmed, ComesNext;
    var s := Last(run);
    AllUnderRoot(g, y);
    PassFinds(g, s.st, Root(g), y);
    var c := GetAvailable(g, s.st, Root(g));
    RunGrows(g, run, Pick);
    var picked := run + [Next(g, s, Pick)];
    RunGrows(g, picked, Mark);
    run' := picked + [Next(g, Last(picked), Mark)];
    assert SetStatus(g, c.st, y, Running) == c.st[y := Running];
  }

  lemma {:induction false} StartsLeft(g: Graph, run: seq<System>, k: Id) returns (run': seq<System>)
    requires k < Size(g) && !g.nodes[k].isGroup && LeftToRight(g, run, k, Pending)
    ensures run' != [] && LeftToRight(g, run', k, Running) && Last(run').log == Last(run).log + [Started(k)]
    ensures forall i :: 0 <= i < Size(g) && i != k ==> Last(run').st[i] != Running
  {
    hide Follows, ComesNext, Compact;
    LeftIsNext(g, Last(run).st, k);
    run' := Starts(g, run, k, k);
    var st :| Harmless(g, Last(run).st, st) && Last(run').st == st[k := Running];
    NoRunning(g, st);
  }

  lemma {:induction false} EndsLeft(g: Graph, run: seq<System>, k: Id) returns (run': seq<System>)
    requires k < Size(g) && !g.nodes[k].isGroup && LeftToRight(g, run, k, Running)
    requires forall i :: 0 <= i < Size(g) && i != k ==> Last(run).st[i] != Running
    ensures run' != [] && LeftToRight(g, run', k + 1, Pending) && Last(run').log == Last(run).log + [Ended(k, true)]
  {
    hide Follows, Compact;
    RunGrows(g, run, End(k, true));
    run' := run + [Next(g, Last(run), End(k, true))];
    assert Last(run').st == Last(run).st[k := Successful];
  }

  ghost predicate ComputesNothing(g: Graph) {
    forall i :: 0 <= i < Size(g) ==> g.nodes[i].computed == []
  }

  ghost predicate LoggedBelow(log: seq<Event>, k: nat) {
    forall e :: e in log ==> e.id < k
  }

  lemma {:induction false} LeftStart(g: Graph) returns (run: seq<System>)
    requires WellFormed(g) && Compact(g) && ComputesNothing(g)
    ensures run != [] && LeftToRight(g, run, 0, Pending) && Last(run).log == []
    ensures forall i :: 0 <= i < Size(g) ==> Last(run).st[i] != Running
  {
    hide Compact;
    run := [Initial(g)];
  }

  lemma {:induction false} SkipGroup(g: Graph, run: seq<System>, k: Id)
    requires k < Size(g) && g.nodes[k].isGroup && LeftToRight(g, run, k, Pending)
    ensures run != [] && LeftToRight(g, run, k + 1, Pending)
  {
    hide Follows, Compact;
  }

  /** The actions to the left of number `k` can be taken one by one. */
  lemma {:induction false} TakeUpTo(g: Graph, k: nat) returns (run: seq<System>)
    requires WellFormed(g) && Compact(g) && ComputesNothing(g) && k <= Size(g)
    ensures run != [] && LeftToRight(g, run, k, Pending) && LoggedBelow(Last(run).log, k)
    decreases k
  {
    hide LeftToRight, Compact, ComputesNothing, IsRun;
    if k == 0 {
      run := LeftStart(g);
    } else {
      run := TakeUpTo(g, k - 1);
      if g.nodes[k - 1].isGroup {
        SkipGroup(g, run, k - 1);
      } else {
        var log := Last(run).log;
        run := StartsLeft(g, run, k - 1);
        run := EndsLeft(g, run, k - 1);
      }
    }
  }

  // ------------------------------------------------------------------------
  // The gap
  // ------------------------------------------------------------------------

  /** Item `l` is before item `r` in a sequence, with only hollow items between, and at least one. */
  ghost predicate Gap(g: Graph, l: Id, r: Id)
    requires WellFormed(g)
  {
    && l < r < Size(g) && g.up[l] == g.up[r] < Size(g) && Downstream(g, l, r) && l !in g.nodes[r].depends
    && !Hollow(g, l) && !Hollow(g, r)
    && forall w :: l < w < r && g.up[w] == g.up[l] ==> Hollow(g, w)
  }

  /** The nearest items on both sides of a hollow one that run something. */
  lemma {:induction false} GapSides<Op>(items: seq<Plan<Op>>, h: nat) returns (l: nat, r: nat)
    requires 0 < h < |items| - 1 && HollowPlan(items[h])
    requires (exists k :: 0 <= k < h && !HollowPlan(items[k])) && (exists k :: h < k < |items| && !HollowPlan(items[k]))
    ensures l < h < r < |items| && !HollowPlan(items[l]) && !HollowPlan(items[r])
    ensures forall k :: l < k < r ==> HollowPlan(items[k])
  {
    l := h - 1;
    while HollowPlan(items[l])
      invariant 0 <= l < h && forall k :: l < k < h ==> HollowPlan(items[k])
      decreases l
    {
      l := l - 1;
    }
    r := h + 1;
    while HollowPlan(items[r])
      invariant h < r < |items| && forall k :: h < k < r ==> HollowPlan(items[k])
      decreases |items| - r
    {
      r := r + 1;
    }
  }

  lemma {:induction false} HollowBetween<Op>(g: Graph, items: seq<Plan<Op>>, base: nat, root: Id, m: nat, n: nat, w: Id)
    requires WellFormed(g) && PlacedAll(g, true, items, base, root, []) && m < n < |items|
    requires root < Size(g) && g.nodes[root].kids == Roots(items, base)
    requires forall k :: m < k < n ==> HollowPlan(items[k])
    requires Roots(items, base)[m] < w < Roots(items, base)[n] && w < Size(g) && g.up[w] == root
    ensures Hollow(g, w)
  {
    hide NodeOk, PlacedAll;
    RootsAt(items, base);
    HasKid(g, w);
    var k := KidAt(g, root, w);
    ItemHollow(g, true, items, base, root, k);
    assert m < k < n;
  }

  lemma {:induction false} SequenceGap<Op>(g: Graph, items: seq<Plan<Op>>, base: nat, root: Id, m: nat, n: nat)
    requires WellFormed(g) && PlacedAll(g, true, items, base, root, []) && m + 1 < n < |items|
    requires root < Size(g) && g.nodes[root].kids == Roots(items, base)
    requires !HollowPlan(items[m]) && !HollowPlan(items[n]) && forall k :: m < k < n ==> HollowPlan(items[k])
    ensures Gap(g, Roots(items, base)[m], Roots(items, base)[n])
  {
    hide NodeOk, PlacedAll, HollowPlan;
    var ids := Roots(items, base);
    var l, r := ids[m], ids[n];
    RootsAt(items, base);
    ItemHollow(g, true, items, base, root, m);
    ItemHollow(g, true, items, base, root, n);
    ItemsDownstream(g, items, base, root, m, n);
    ItemsUp(g, true, items, base, root, []);
    assert l in ids && r in ids;
    assert ids[n - 1] != l;
    forall w | l < w < r && g.up[w] == root ensures Hollow(g, w) {
      HollowBetween(g, items, base, root, m, n, w);
    }
  }

  lemma {:induction false} FindGap<Op>(g: Graph, p: Plan<Op>, base: nat, up: Id, depends: seq<Id>, requiredBy: seq<Id>)
    returns (l: Id, r: Id)
    requires WellFormed(g) && Placed(g, p, base, up, depends, requiredBy) && !TamePlan(p)
    ensures Gap(g, l, r)
    decreases p
  {
    hide WellFormed, Gap, PlacedAll, HollowPlan, CountAll;
    if a :| 0 <= a < |p.items| && !TamePlan(p.items[a]) {
      var b, dep, req := ItemPlaced(g, p.inSequence, p.items, base, base + Count(p) - 1, [], a);
      l, r := FindGap(g, p.items[a], b, base + Count(p) - 1, dep, req);
    } else {
      var h :| 0 < h < |p.items| - 1 && HollowPlan(p.items[h])
            && (exists k :: 0 <= k < h && !HollowPlan(p.items[k])) && (exists k :: h < k < |p.items| && !HollowPlan(p.items[k]));
      var m, n := GapSides(p.items, h);
      SequenceGap(g, p.items, base, base + Count(p) - 1, m, n);
      l, r := Roots(p.items, base)[m], Roots(p.items, base)[n];
    }
  }

  ghost predicate IsSingleUnder(g: Graph, x: Id, i: Id)
    requires WellFormed(g) && i < Size(g)
  {
    x < Size(g) && !g.nodes[x].isGroup && Under(g, x, i)
  }

  lemma {:induction false} LastSingle(g: Graph, i: Id) returns (x: Id)
    requires WellFormed(g) && i < Size(g) && !Hollow(g, i)
    ensures IsSingleUnder(g, x, i) && forall b: nat :: IsSingleUnder(g, b, i) ==> b <= x
  {
    var s := SingleUnder(g, i);
    x := Size(g) - 1;
    while !IsSingleUnder(g, x, i)
      invariant s <= x < Size(g) && forall b: nat :: IsSingleUnder(g, b, i) ==> b <= x
      decreases x
    {
      x := x - 1;
    }
  }

  lemma {:induction false} FirstSingle(g: Graph, i: Id) returns (x: Id)
    requires WellFormed(g) && i < Size(g) && !Hollow(g, i)
    ensures IsSingleUnder(g, x, i) && forall b: nat :: IsSingleUnder(g, b, i) ==> x <= b
  {
    var s := SingleUnder(g, i);
    x := 0;
    while !IsSingleUnder(g, x, i)
      invariant 0 <= x <= s && forall b: nat :: IsSingleUnder(g, b, i) ==> x <= b
      decreases s - x
    {
      x := x + 1;
    }
  }

  /** The last action before the gap and the first one after it. */
  ghost predicate AcrossGap(g: Graph, l: Id, r: Id, x: Id, y: Id)
    requires WellFormed(g)
  {
    && Gap(g, l, r) && Compact(g)
    && IsSingleUnder(g, x, l) && (forall b: nat :: IsSingleUnder(g, b, l) ==> b <= x)
    && IsSingleUnder(g, y, r) && (forall b: nat :: IsSingleUnder(g, b, r) ==> y <= b)
  }

  /** To the left of what is around `y` there is no action after `x`; and `x` itself lies only below `l`. */
  lemma {:induction false} LeftOfGap(g: Graph, l: Id, r: Id, x: Id, y: Id, z: Id, w: Id, b: Id)
    requires WellFormed(g) && AcrossGap(g, l, r, x, y)
    requires w < z < Size(g) && g.up[w] == g.up[z] && Under(g, y, z) && IsSingleUnder(g, b, w)
    ensures b <= x
    ensures b == x ==> z == r && w == l
  {
    AroundIsNotBelow(g, b, w);
    assert NodeOk(g, l) && NodeOk(g, r) && NodeOk(g, z) && NodeOk(g, w);
    UnderLinear(g, y, z, r);
    if z == r {
      if w < l {
        assert w < x;
      } else if l < w {
        UnderNotHollow(g, b, w);
      } else {
        assert IsSingleUnder(g, b, l);
      }
    } else if Under(g, z, r) {
      BesideBelow(g, z, w, r, b);
      assert w < y;
      assert IsSingleUnder(g, b, r);
    } else {
      assert Under(g, g.up[l], z);
      UnderThen(g, x, l);
      UnderTransitive(g, x, g.up[l], z);
      assert w < x;
    }
  }

  lemma {:induction false} BesideBelow(g: Graph, z: Id, w: Id, r: Id, b: Id)
    requires WellFormed(g) && z < Size(g) && w < Size(g) && r < Size(g) && z != r && Under(g, z, r) && g.up[w] == g.up[z]
    requires b < Size(g) && Under(g, b, w)
    ensures Under(g, b, r)
  {
    assert NodeOk(g, z) && NodeOk(g, w);
    UnderThen(g, b, w);
    UnderTransitive(g, b, g.up[w], r);
  }

  lemma {:induction false} GapIsNext(g: Graph, st: Statuses, l: Id, r: Id, x: Id, y: Id)
    requires Fits(g, st) && AcrossGap(g, l, r, x, y) && UpTo(g, st, x) && st[x] == Running
    ensures ComesNext(g, st, y)
  {
    hide Gap, Compact;
    forall z, w | 0 <= z < Size(g) && 0 <= w < z && Under(g, y, z) && g.up[w] == g.up[z] ensures !SomePending(g, st, w) {
      forall b: nat | IsSingleUnder(g, b, w) ensures st[b] != Pending {
        LeftOfGap(g, l, r, x, y, z, w, b);
      }
    }
    forall z, d | 0 <= z < Size(g) && d in g.nodes[z].depends && d < Size(g) && Under(g, y, z) ensures AllEnded(g, st, d) {
      assert NodeOk(g, z);
      forall b: nat | IsSingleUnder(g, b, d) ensures st[b] == Successful {
        LeftOfGap(g, l, r, x, y, z, d, b);
        GapSkips(g, l, r);
      }
    }
  }

  lemma {:induction false} GapSkips(g: Graph, l: Id, r: Id)
    requires WellFormed(g) && Gap(g, l, r)
    ensures l !in g.nodes[r].depends
  {
  }

  lemma {:induction false} GapBefore(g: Graph, l: Id, r: Id, x: Id, y: Id)
    requires WellFormed(g) && AcrossGap(g, l, r, x, y)
    ensures Before(g, x, y) && x < y < Size(g) && !g.nodes[x].isGroup && !g.nodes[y].isGroup
  {
    AroundIsNotBelow(g, x, l);
  }

  /** In a graph with a gap some run starts an action while one that comes before it still runs. */
  lemma {:induction false} GapBreaksOrder(g: Graph, l: Id, r: Id) returns (run: seq<System>)
    requires WellFormed(g) && Compact(g) && ComputesNothing(g) && Gap(g, l, r)
    ensures IsRun(g, run) && !LinearExtension(g, Last(run).log)
  {
    hide Gap, Compact, ComputesNothing, Follows, ComesNext, Before, Unharmed, Harmless;
    GapShape(g, l, r);
    var x := LastSingle(g, l);
    var y := FirstSingle(g, r);
    assert AcrossGap(g, l, r, x, y);
    GapBefore(g, l, r, x, y);
    run := TakeUpTo(g, x);
    var log := Last(run).log;
    run := StartsLeft(g, run, x);
    GapIsNext(g, Last(run).st, l, r, x, y);
    run := Starts(g, run, x, y);
    var all := Last(run).log;
    var n := |all| - 1;
    assert all[..n] == log + [Started(x)] && all[n] == Started(y);
    assert !StartInOrder(g, all, n);
  }

  /** For a plan that is not tame there is a run that does not keep its order. */
  lemma {:induction false} EmptyGroupBreaksOrder<Op>(p: Plan<Op>) returns (run: seq<System>)
    requires !TamePlan(p)
    ensures WellFormed(ToGraph(p)) && IsRun(ToGraph(p), run) && !LinearExtension(ToGraph(p), Last(run).log)
  {
    hide Gap, Compact, LinearExtension, Placed, ToGraph;
    var g := ToGraph(p);
    PlanHasGraph(p);
    PlanWellFormed(g, p);
    PlanCompact(g, p);
    GraphComputesNothing(p);
    var l, r := FindGap(g, p, 0, Count(p), [], []);
    run := GapBreaksOrder(g, l, r);
  }

  lemma {:induction false} GraphComputesNothing<Op>(p: Plan<Op>)
    ensures ComputesNothing(ToGraph(p))
  {
    BuildComputesNothing(p, 0, Count(p), [], []);
    var g := ToGraph(p);
    forall i | 0 <= i < Size(g) ensures g.nodes[i].computed == [] {
      assert g.nodes[i] in g.nodes;
    }
  }

  /** All runs of a plan start its actions in a linear extension of its order if and only if the plan is tame. */
  lemma {:induction false} OrderIffTame<Op>(p: Plan<Op>)
    ensures WellFormed(ToGraph(p))
    ensures TamePlan(p) <==> forall run :: IsRun(ToGraph(p), run) ==> LinearExtension(ToGraph(p), Last(run).log)
  {
    hide Gap, Compact, LinearExtension, Placed, ToGraph, TamePlan;
    var g := ToGraph(p);
    PlanHasGraph(p);
    PlanWellFormed(g, p);
    if TamePlan(p) {
      TamePlanTameGraph(g, p);
      forall run | IsRun(g, run) ensures LinearExtension(g, Last(run).log) {
        RunsExtendTheOrder(g, run, |run| - 1);
      }
    } else {
      var run := EmptyGroupBreaksOrder(p);
    }
  }

  lemma {:induction false} GapShape(g: Graph, l: Id, r: Id)
    requires WellFormed(g) && Gap(g, l, r)
    ensures l < r < Size(g) && !Hollow(g, l) && !Hollow(g, r)
  {
  }
}
