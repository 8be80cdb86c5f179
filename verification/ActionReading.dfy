/**
  Asking for a status, for readiness or for the next action rewrites the stored
  statuses of groups. These lemmas say what such a pass keeps, and what its
  answer means.
*/
module ActionReading {
  import opened ActionGraph
  import opened ActionInvariant

  /** A pass over action `i` touches nothing from its group on, and after `i` it only marks NOT_RUN. */
  ghost predicate Local(g: Graph, st: Statuses, st': Statuses, i: Id)
    requires Fits(g, st) && Fits(g, st') && i < Size(g)
  {
    forall x :: 0 <= x < Size(g) ==>
      && (g.up[i] <= x ==> st'[x] == st[x])
      && (i < x ==> st'[x] in {st[x], NotRun})
  }

  /** What every pass keeps. */
  ghost predicate Kept(g: Graph, st: Statuses, st': Statuses)
    requires Fits(g, st)
  {
    Inv(g, st') && Forward(g, st, st') && Calm(g, st, st')
  }

  ghost predicate Passed(g: Graph, st: Statuses, st': Statuses, i: Id)
    requires Fits(g, st) && i < Size(g)
  {
    Kept(g, st, st') && Local(g, st, st', i)
  }

  lemma {:induction false} KeptThen(g: Graph, a: Statuses, b: Statuses, c: Statuses)
    requires Fits(g, a) && Kept(g, a, b) && Kept(g, b, c)
    ensures Kept(g, a, c)
  {
    ForwardTransitive(g, a, b, c);
  }

  lemma {:induction false} PassedStay(g: Graph, st: Statuses, i: Id)
    requires Inv(g, st) && i < Size(g)
    ensures Passed(g, st, st, i)
  {
  }

  lemma {:induction false} PassedThen(g: Graph, a: Statuses, b: Statuses, c: Statuses, i: Id)
    requires Fits(g, a) && i < Size(g)
    requires Passed(g, a, b, i) && Passed(g, b, c, i)
    ensures Passed(g, a, c, i)
  {
    ForwardTransitive(g, a, b, c);
  }

  lemma {:induction false} PassedKid(g: Graph, st: Statuses, st': Statuses, i: Id, k: Id)
    requires Fits(g, st) && i < Size(g) && k in g.nodes[i].kids && k < Size(g)
    requires Passed(g, st, st', k)
    ensures Passed(g, st, st', i) && st'[i] == st[i]
  {
    assert NodeOk(g, i);
  }

  lemma {:induction false} KidAt(g: Graph, i: Id, k: Id) returns (a: nat)
    requires WellFormed(g) && i < Size(g) && k in g.nodes[i].kids
    ensures a < |g.nodes[i].kids| && Kid(g, i, a) == k
  {
    a :| 0 <= a < |g.nodes[i].kids| && g.nodes[i].kids[a] == k;
  }

  // ------------------------------------------------------------------------
  // getStatus
  // ------------------------------------------------------------------------

  /** What the flags of the `getStatus` loop say about the members before number `pos`. */
  ghost predicate FlagsAgree(g: Graph, st: Statuses, i: Id, pos: nat, m: Summary)
    requires Fits(g, st) && i < Size(g) && pos <= |g.nodes[i].kids|
  {
    && !(m.hasFinished && m.hasNotFinished && st[i] == Running)
    && (!m.hasNotFinished ==> forall a :: 0 <= a < pos ==> Done(st[Kid(g, i, a)]))
    && (!m.hasNotFinished && !m.hasFailed ==> forall a :: 0 <= a < pos ==> st[Kid(g, i, a)] == Successful)
    && (m.hasFailed ==> exists a :: 0 <= a < pos && Bad(st[Kid(g, i, a)]))
  }

  /** What the stored status of the group says about the flags to come. */
  ghost predicate StoredAgrees(g: Graph, st: Statuses, i: Id, pos: nat, m: Summary)
    requires Fits(g, st) && i < Size(g) && pos <= |g.nodes[i].kids|
  {
    var n := |g.nodes[i].kids|;
    match st[i]
    case Running =>
      exists a :: 0 <= a < n && !Hollow(g, Kid(g, i, a)) && Begun(st[Kid(g, i, a)]) && (a < pos ==> m.hasFinished)
    case Failed =>
      !m.hasNotFinished && exists a :: 0 <= a < n && Bad(st[Kid(g, i, a)]) && (a < pos ==> m.hasFailed)
    case Successful => !m.hasNotFinished && !m.hasFailed
    case _ => true
  }

  ghost predicate ScanSeen(g: Graph, st: Statuses, i: Id, pos: nat, m: Summary)
    requires Fits(g, st) && i < Size(g) && pos <= |g.nodes[i].kids|
  {
    FlagsAgree(g, st, i, pos, m) && StoredAgrees(g, st, i, pos, m)
  }

  lemma {:induction false} ScanStarts(g: Graph, st: Statuses, i: Id)
    requires Inv(g, st) && i < Size(g) && g.nodes[i].isGroup
    ensures ScanSeen(g, st, i, 0, NothingSeen)
  {
    assert NodeOk(g, i) && NodeInv(g, st, i);
    var kids := g.nodes[i].kids;
    if st[i] == Running {
      var k :| k in kids && !Hollow(g, k) && Begun(st[k]);
      var a := KidAt(g, i, k);
    } else if st[i] == Failed {
      var k :| k in kids && Bad(st[k]);
      var a := KidAt(g, i, k);
    }
  }

  /** Members found SUCCESSFUL one after the other stay so while the next is asked. */
  lemma {:induction false} PrefixStays(g: Graph, st: Statuses, st': Statuses, i: Id, pos: nat, a: nat)
    requires Inv(g, st) && Inv(g, st') && Forward(g, st, st') && Tame(g) && i < Size(g)
    requires a < pos <= |g.nodes[i].kids|
    requires forall b :: 0 <= b < pos ==> st[Kid(g, i, b)] == Successful
    ensures st'[Kid(g, i, a)] == Successful
    decreases a
  {
    var kids := g.nodes[i].kids;
    var k := Kid(g, i, a);
    assert k in kids && NodeOk(g, k) && NodeInv(g, st', k);
    assert Onward(g, k, st[k], st'[k]);
    if st'[k] != Successful {
      assert g.nodes[k].computed == [];
      var d :| d in Dependencies(g.nodes[k]) && Bad(st'[d]);
      assert d in g.nodes[k].depends && NodeOk(g, d);
      var b := KidAt(g, i, d);
      assert NodeOk(g, i) && kids[b] < kids[a];
      assert b < a;
      PrefixStays(g, st, st', i, pos, b);
    }
  }

  lemma {:induction false} GetStatusKeeps(g: Graph, st: Statuses, i: Id)
    requires Inv(g, st) && Tame(g) && i < Size(g)
    ensures Passed(g, st, GetStatus(g, st, i).st, i)
    ensures GetStatus(g, st, i).status == GetStatus(g, st, i).st[i]
    decreases i, 1, 0
  {
    if g.nodes[i].isGroup && st[i] != NotRun {
      ScanStarts(g, st, i);
      ScanKeeps(g, st, i, 0, NothingSeen);
    } else {
      PassedStay(g, st, i);
    }
  }

  lemma {:induction false} ScanKeeps(g: Graph, st: Statuses, i: Id, pos: nat, m: Summary)
    requires Inv(g, st) && Tame(g) && i < Size(g) && g.nodes[i].isGroup && st[i] != NotRun
    requires pos <= |g.nodes[i].kids| && ScanSeen(g, st, i, pos, m)
    ensures Passed(g, st, Scan(g, st, i, pos, st[i], m).st, i)
    ensures Scan(g, st, i, pos, st[i], m).status == Scan(g, st, i, pos, st[i], m).st[i]
    decreases i, 0, |g.nodes[i].kids| - pos
  {
    hide NodeInv, TameAt, ScanSeen, GetStatus, HasCulprit;
    if pos == |g.nodes[i].kids| {
      ScanEnds(g, st, i, m);
    } else {
      var k := Kid(g, i, pos);
      GetStatusKeeps(g, st, k);
      var kid := GetStatus(g, st, k);
      PassedKid(g, st, kid.st, i, k);
      var m' := Seen(m, kid.status);
      if m'.hasFinished && m'.hasNotFinished && st[i] == Running {
        assert Scan(g, st, i, pos, st[i], m) == Reading(kid.st, st[i]);
      } else if kid.status == Running {
        ScanRunning(g, kid.st, i, k);
        PassedThen(g, st, kid.st, SetStatus(g, kid.st, i, Running), i);
      } else {
        ScanStep(g, st, kid.st, i, pos, m);
        ScanKeeps(g, kid.st, i, pos + 1, m');
        PassedThen(g, st, kid.st, Scan(g, kid.st, i, pos + 1, st[i], m').st, i);
      }
    }
  }

  ghost predicate Stepping(g: Graph, st: Statuses, st': Statuses, i: Id, pos: nat)
    requires i < Size(g)
  {
    && Inv(g, st) && Inv(g, st') && Tame(g) && Forward(g, st, st')
    && g.nodes[i].isGroup && pos < |g.nodes[i].kids|
    && st'[i] == st[i] && st'[Kid(g, i, pos)] != Running
  }

  lemma {:induction false} ScanStep(g: Graph, st: Statuses, st': Statuses, i: Id, pos: nat, m: Summary)
    requires i < Size(g) && Stepping(g, st, st', i, pos) && ScanSeen(g, st, i, pos, m)
    requires var m' := Seen(m, st'[Kid(g, i, pos)]);
             !(m'.hasFinished && m'.hasNotFinished && st[i] == Running)
    ensures ScanSeen(g, st', i, pos + 1, Seen(m, st'[Kid(g, i, pos)]))
  {
    StepFlags(g, st, st', i, pos, m);
    StepStored(g, st, st', i, pos, m);
  }

  lemma {:induction false} KidMoves(g: Graph, st: Statuses, st': Statuses, i: Id, a: nat)
    requires Fits(g, st) && Fits(g, st') && Forward(g, st, st') && i < Size(g) && a < |g.nodes[i].kids|
    ensures Done(st[Kid(g, i, a)]) ==> Done(st'[Kid(g, i, a)])
    ensures Bad(st[Kid(g, i, a)]) ==> Bad(st'[Kid(g, i, a)])
    ensures !Hollow(g, Kid(g, i, a)) && Begun(st[Kid(g, i, a)]) ==> Begun(st'[Kid(g, i, a)])
  {
    var k := Kid(g, i, a);
    assert Onward(g, k, st[k], st'[k]);
  }

  lemma {:induction false} StepFlags(g: Graph, st: Statuses, st': Statuses, i: Id, pos: nat, m: Summary)
    requires i < Size(g) && Stepping(g, st, st', i, pos) && FlagsAgree(g, st, i, pos, m)
    requires var m' := Seen(m, st'[Kid(g, i, pos)]);
             !(m'.hasFinished && m'.hasNotFinished && st[i] == Running)
    ensures FlagsAgree(g, st', i, pos + 1, Seen(m, st'[Kid(g, i, pos)]))
  {
    var m' := Seen(m, st'[Kid(g, i, pos)]);
    if !m'.hasNotFinished {
      forall a | 0 <= a < pos ensures Done(st'[Kid(g, i, a)]) {
        KidMoves(g, st, st', i, a);
      }
      if !m'.hasFailed {
        forall a | 0 <= a < pos ensures st'[Kid(g, i, a)] == Successful {
          PrefixStays(g, st, st', i, pos, a);
        }
      }
    }
    if m.hasFailed {
      var a :| 0 <= a < pos && Bad(st[Kid(g, i, a)]);
      KidMoves(g, st, st', i, a);
    }
  }

  lemma {:induction false} StepStored(g: Graph, st: Statuses, st': Statuses, i: Id, pos: nat, m: Summary)
    requires i < Size(g) && Stepping(g, st, st', i, pos) && StoredAgrees(g, st, i, pos, m)
    ensures StoredAgrees(g, st', i, pos + 1, Seen(m, st'[Kid(g, i, pos)]))
  {
    assert NodeInv(g, st', i);
    match st[i] {
      case Running =>
        var a :| 0 <= a < |g.nodes[i].kids| && !Hollow(g, Kid(g, i, a)) && Begun(st[Kid(g, i, a)])
                 && (a < pos ==> m.hasFinished);
        KidMoves(g, st, st', i, a);
      case Failed =>
        var a :| 0 <= a < |g.nodes[i].kids| && Bad(st[Kid(g, i, a)]) && (a < pos ==> m.hasFailed);
        KidMoves(g, st, st', i, a);
      case _ =>
    }
  }

  /** A member seen RUNNING makes its group RUNNING. */
  lemma {:induction false} ScanRunning(g: Graph, st: Statuses, i: Id, k: Id)
    requires Inv(g, st) && Tame(g) && i < Size(g) && g.nodes[i].isGroup && st[i] != NotRun
    requires k in g.nodes[i].kids && k < Size(g) && st[k] == Running
    ensures Passed(g, st, SetStatus(g, st, i, Running), i)
  {
    assert NodeOk(g, i) && NodeOk(g, k) && NodeInv(g, st, i) && NodeInv(g, st, k);
    SetStatusWrites(g, st, i, Running);
    if st[i] == Running {
      assert SetStatus(g, st, i, Running) == st;
      PassedStay(g, st, i);
    } else {
      assert Open(g, st, k) && OpenUp(g, st, k) && Open(g, st, i);
      assert ComputedMet(g, st, i);
      CalmWrite(g, st, i, Running);
    }
  }

  lemma {:induction false} KidOpens(g: Graph, st: Statuses, i: Id, k: Id)
    requires Inv(g, st) && i < Size(g) && k in g.nodes[i].kids && k < Size(g)
    requires !Hollow(g, k) && (Done(st[k]) || st[k] == Running)
    ensures Open(g, st, i)
  {
    assert NodeOk(g, i) && NodeOk(g, k) && NodeInv(g, st, k);
    assert Open(g, st, k) ==> OpenUp(g, st, k);
  }

  /** Setting the outcome after all members were asked. */
  lemma {:induction false} ScanEnds(g: Graph, st: Statuses, i: Id, m: Summary)
    requires Inv(g, st) && Tame(g) && i < Size(g) && g.nodes[i].isGroup && st[i] != NotRun
    requires ScanSeen(g, st, i, |g.nodes[i].kids|, m)
    ensures Passed(g, st, SetStatus(g, st, i, Outcome(m)), i)
    ensures SetStatus(g, st, i, Outcome(m))[i] == Outcome(m)
  {
    assert NodeOk(g, i) && NodeInv(g, st, i);
    var kids := g.nodes[i].kids;
    var s := Outcome(m);
    SetStatusWrites(g, st, i, s);
    forall k | k in kids ensures exists a :: 0 <= a < |kids| && Kid(g, i, a) == k {
      var a := KidAt(g, i, k);
    }
    if st[i] == s {
      if s == Failed {
        BadAgain(g, st, i);
      }
      assert SetStatus(g, st, i, s) == st;
      PassedStay(g, st, i);
    } else if s == Successful {
      if !Hollow(g, i) {
        var k :| k in kids && !Hollow(g, k);
        KidOpens(g, st, i, k);
      }
      CalmWrite(g, st, i, s);
    } else {
      assert s == Failed;
      ScanFails(g, st, i, m);
    }
  }

  lemma {:induction false} ScanFails(g: Graph, st: Statuses, i: Id, m: Summary)
    requires Inv(g, st) && Tame(g) && i < Size(g) && g.nodes[i].isGroup && st[i] in {Pending, Running}
    requires FlagsAgree(g, st, i, |g.nodes[i].kids|, m) && Outcome(m) == Failed
    ensures Passed(g, st, SetStatus(g, st, i, Failed), i)
  {
    ScanMayFail(g, st, i, m);
    FailWrite(g, st, i, Failed);
    FailIsLocal(g, st, i, Failed);
  }

  lemma {:induction false} ScanMayFail(g: Graph, st: Statuses, i: Id, m: Summary)
    requires Inv(g, st) && i < Size(g) && g.nodes[i].isGroup && st[i] in {Pending, Running}
    requires FlagsAgree(g, st, i, |g.nodes[i].kids|, m) && Outcome(m) == Failed
    ensures MayFail(g, st, i, Failed)
  {
    var a :| 0 <= a < |g.nodes[i].kids| && Bad(st[Kid(g, i, a)]);
    var bad := Kid(g, i, a);
    assert NodeOk(g, i);
    if Hollow(g, i) {
      assert NodeInv(g, st, bad);
      HollowShelters(g, bad);
    }
    forall k | k in g.nodes[i].kids ensures Done(st[k]) {
      var b := KidAt(g, i, k);
    }
    var k :| k in g.nodes[i].kids && !Hollow(g, k);
    KidOpens(g, st, i, k);
    var st' := st[i := Failed];
    assert bad in g.nodes[i].kids && Bad(st'[bad]);
    assert GroupAgrees(g, st', i);
  }

  /** Failures are passed on within the group only, and calmly. */
  lemma {:induction false} FailIsLocal(g: Graph, st: Statuses, i: Id, s: Status)
    requires Inv(g, st) && Tame(g) && i < Size(g) && MayFail(g, st, i, s)
    requires g.nodes[i].isGroup || s == NotRun
    ensures Local(g, st, SetStatus(g, st, i, s), i)
    ensures Calm(g, st, SetStatus(g, st, i, s))
  {
    assert NodeOk(g, i);
    SetStatusWrites(g, st, i, s);
    MayFailExposed(g, st, i, s);
    forall x | 0 <= x < Size(g) && Downstream(g, i, x)
      ensures x < g.up[i] && i < x && (!g.nodes[x].isGroup ==> st[x] in {Pending, NotRun})
    {
      assert NodeOk(g, x);
      DownstreamShape(g, i, x);
      DownstreamNotBegun(g, st, i, x);
    }
  }

  // ------------------------------------------------------------------------
  // isReady, isDone and getAvailableAction
  // ------------------------------------------------------------------------

  lemma {:induction false} ReadBadKeeps(g: Graph, st: Statuses, d: Id)
    requires Inv(g, st) && Tame(g) && d < Size(g)
    ensures Passed(g, st, ReadBad(g, st, d).st, d)
    ensures ReadBad(g, st, d).ready ==> Bad(ReadBad(g, st, d).st[d])
    ensures !g.nodes[d].isGroup ==> ReadBad(g, st, d).st == st
  {
    GetStatusKeeps(g, st, d);
    var one := GetStatus(g, st, d);
    GetStatusKeeps(g, one.st, d);
    PassedThen(g, st, one.st, GetStatus(g, one.st, d).st, d);
  }

  lemma {:induction false} IsDoneKeeps(g: Graph, st: Statuses, i: Id)
    requires Inv(g, st) && Tame(g) && i < Size(g)
    ensures Kept(g, st, IsDone(g, st, i).st)
    ensures IsDone(g, st, i).ready ==> IsDone(g, st, i).st[i] in {Successful, Failed}
    ensures st[i] in {Successful, Failed} && !Exposed(g, i) ==> IsDone(g, st, i).ready
  {
    GetStatusKeeps(g, st, i);
    var one := GetStatus(g, st, i);
    assert Onward(g, i, st[i], one.st[i]);
    if one.status != Failed {
      GetStatusKeeps(g, one.st, i);
      var two := GetStatus(g, one.st, i);
      KeptThen(g, st, one.st, two.st);
      assert Onward(g, i, one.st[i], two.st[i]);
    }
  }

  lemma {:induction false} OpenKept(g: Graph, st: Statuses, st': Statuses, i: Id)
    requires Inv(g, st) && Tame(g) && Kept(g, st, st') && i < Size(g) && !Hollow(g, i)
    ensures Open(g, st, i) ==> Open(g, st', i)
    ensures OpenUp(g, st, i) ==> OpenUp(g, st', i)
  {
    forall x | 0 <= x < Size(g) && st[x] == Successful && !Exposed(g, x)
      ensures st'[x] == Successful
    {
      assert Onward(g, x, st[x], st'[x]);
    }
    OpenStays(g, st, st', i);
  }

  /** Asking a dependency of `i` leaves `i` where it is, or finds it NOT_RUN. */
  ghost predicate Beside(g: Graph, st: Statuses, st': Statuses, i: Id)
    requires Fits(g, st) && i < Size(g)
  {
    Kept(g, st, st') && st'[i] in {st[i], NotRun}
  }

  lemma {:induction false} AskDependency(g: Graph, st: Statuses, i: Id, d: Id)
    requires Inv(g, st) && Tame(g) && i < Size(g) && d < Size(g) && d in Dependencies(g.nodes[i])
    ensures Beside(g, st, GetStatus(g, st, d).st, i)
    ensures GetStatus(g, st, d).status == GetStatus(g, st, d).st[d]
    ensures Beside(g, st, ReadBad(g, st, d).st, i)
    ensures ReadBad(g, st, d).ready ==> Bad(ReadBad(g, st, d).st[d])
  {
    assert NodeOk(g, i);
    GetStatusKeeps(g, st, d);
    ReadBadKeeps(g, st, d);
  }

  lemma {:induction false} MarkNotRun(g: Graph, st: Statuses, i: Id, d: Id)
    requires Inv(g, st) && Tame(g) && i < Size(g) && d < Size(g) && d in Dependencies(g.nodes[i])
    requires Bad(st[d]) && st[i] in {Pending, NotRun} && (!Hollow(g, i) ==> OpenUp(g, st, i))
    ensures Beside(g, st, SetStatus(g, st, i, NotRun), i)
  {
    if st[i] == NotRun {
      BadAgain(g, st, i);
      PassedStay(g, st, i);
    } else {
      FailWrite(g, st, i, NotRun);
      FailIsLocal(g, st, i, NotRun);
      SetStatusWrites(g, st, i, NotRun);
    }
  }

  /** `i` waits, or was found NOT_RUN, in a group that was entered. */
  ghost predicate Waiting(g: Graph, st: Statuses, i: Id)
    requires i < Size(g)
  {
    Inv(g, st) && Tame(g) && st[i] in {Pending, NotRun} && (!Hollow(g, i) ==> OpenUp(g, st, i))
  }

  lemma {:induction false} WaitingStays(g: Graph, st: Statuses, st': Statuses, i: Id)
    requires i < Size(g) && Waiting(g, st, i) && Beside(g, st, st', i)
    ensures Waiting(g, st', i)
  {
    if !Hollow(g, i) {
      OpenKept(g, st, st', i);
    }
  }

  lemma {:induction false} BesideThen(g: Graph, a: Statuses, b: Statuses, c: Statuses, i: Id)
    requires i < Size(g) && Waiting(g, a, i) && Beside(g, a, b, i) && Beside(g, b, c, i)
    ensures Beside(g, a, c, i)
  {
    KeptThen(g, a, b, c);
  }

  lemma {:induction false} CheckOneKeeps(g: Graph, st: Statuses, i: Id, d: Id)
    requires i < Size(g) && d < Size(g) && Waiting(g, st, i) && d in Dependencies(g.nodes[i])
    ensures Beside(g, st, CheckOne(g, st, i, d).st, i)
    ensures CheckOne(g, st, i, d).status == CheckOne(g, st, i, d).st[d]
  {
    AskDependency(g, st, i, d);
    var bad := ReadBad(g, st, d);
    WaitingStays(g, st, bad.st, i);
    var st1 := if bad.ready then SetStatus(g, bad.st, i, NotRun) else bad.st;
    if bad.ready {
      MarkNotRun(g, bad.st, i, d);
      BesideThen(g, st, bad.st, st1, i);
    }
    AskDependency(g, st1, i, d);
    BesideThen(g, st, st1, GetStatus(g, st1, d).st, i);
  }

  lemma {:induction false} CheckAllKeeps(g: Graph, st: Statuses, i: Id, pos: nat, ok: bool)
    requires i < Size(g) && Waiting(g, st, i) && pos <= |Dependencies(g.nodes[i])|
    ensures Beside(g, st, CheckAll(g, st, i, pos, ok).st, i)
    ensures CheckAll(g, st, i, pos, ok).ready ==> ok
    ensures CheckAll(g, st, i, pos, ok).ready && !Hollow(g, i) ==>
      forall n :: pos <= n < |Dependencies(g.nodes[i])| ==>
        CheckAll(g, st, i, pos, ok).st[Dep(g, i, n)] == Successful
    decreases |Dependencies(g.nodes[i])| - pos
  {
    hide CheckOne, NodeInv, TameAt;
    if pos == |Dependencies(g.nodes[i])| {
      PassedStay(g, st, i);
    } else {
      var d := Dep(g, i, pos);
      CheckOneKeeps(g, st, i, d);
      var one := CheckOne(g, st, i, d);
      WaitingStays(g, st, one.st, i);
      var ok' := ok && one.status == Successful;
      CheckAllKeeps(g, one.st, i, pos + 1, ok');
      var last := CheckAll(g, one.st, i, pos + 1, ok');
      BesideThen(g, st, one.st, last.st, i);
      if last.ready && !Hollow(g, i) {
        MetStays(g, one.st, last.st, i, d);
      }
    }
  }

  /** A dependency of an action that runs something stays SUCCESSFUL. */
  lemma {:induction false} MetStays(g: Graph, st: Statuses, st': Statuses, i: Id, d: Id)
    requires Inv(g, st) && Tame(g) && i < Size(g) && !Hollow(g, i) && d < Size(g)
    requires d in Dependencies(g.nodes[i]) && Fits(g, st') && Forward(g, st, st')
    requires st[d] == Successful
    ensures st'[d] == Successful
  {
    assert NodeOk(g, i) && TameAt(g, i);
    assert Onward(g, d, st[d], st'[d]);
  }

  lemma {:induction false} IsReadyKeeps(g: Graph, st: Statuses, i: Id)
    requires Inv(g, st) && Tame(g) && i < Size(g) && (!Hollow(g, i) ==> OpenUp(g, st, i))
    ensures Kept(g, st, IsReady(g, st, i).st)
    ensures IsReady(g, st, i).ready && !Hollow(g, i) ==>
      var st' := IsReady(g, st, i).st;
      st'[i] == Pending && Open(g, st', i) && ComputedMet(g, st', i)
  {
    GetStatusKeeps(g, st, i);
    var own := GetStatus(g, st, i);
    assert NodeOk(g, i);
    if own.status == Pending {
      if !Hollow(g, i) {
        OpenKept(g, st, own.st, i);
      }
      var ds := Dependencies(g.nodes[i]);
      CheckAllKeeps(g, own.st, i, 0, true);
      var r := CheckAll(g, own.st, i, 0, true);
      KeptThen(g, st, own.st, r.st);
      if r.ready && !Hollow(g, i) {
        forall d | d in ds ensures r.st[d] == Successful {
          var n :| 0 <= n < |ds| && ds[n] == d;
          assert Dep(g, i, n) == d;
        }
        OpenKept(g, own.st, r.st, i);
        assert NodeInv(g, r.st, i);
      }
    }
  }

  /** What the action returned by `getAvailableAction` satisfies. */
  ghost predicate Startable(g: Graph, st: Statuses, a: Id)
    requires Fits(g, st) && a < Size(g)
  {
    !g.nodes[a].isGroup && st[a] == Pending && Open(g, st, a) && ComputedMet(g, st, a)
  }

  ghost predicate GoodChoice(g: Graph, st: Statuses, i: Id, c: Choice)
    requires Fits(g, st) && i < Size(g)
  {
    && Kept(g, st, c.st)
    && (c.picked.Some? ==>
          !Hollow(g, i) && c.picked.value < Size(g) && Startable(g, c.st, c.picked.value))
  }

  lemma {:induction false} GetAvailableKeeps(g: Graph, st: Statuses, i: Id)
    requires Inv(g, st) && Tame(g) && i < Size(g) && (!Hollow(g, i) ==> OpenUp(g, st, i))
    ensures GoodChoice(g, st, i, GetAvailable(g, st, i))
    decreases i, 1, 0
  {
    IsReadyKeeps(g, st, i);
    var own := IsReady(g, st, i);
    if g.nodes[i].isGroup {
      if own.ready {
        FirstAvailableKeeps(g, own.st, i, 0);
        KeptThen(g, st, own.st, FirstAvailable(g, own.st, i, 0).st);
      } else {
        GetStatusKeeps(g, own.st, i);
        var again := GetStatus(g, own.st, i);
        KeptThen(g, st, own.st, again.st);
        if again.status == Running {
          assert NodeInv(g, again.st, i);
          FirstAvailableKeeps(g, again.st, i, 0);
          KeptThen(g, st, again.st, FirstAvailable(g, again.st, i, 0).st);
        }
      }
    }
  }

  lemma {:induction false} FirstAvailableKeeps(g: Graph, st: Statuses, i: Id, pos: nat)
    requires Inv(g, st) && Tame(g) && i < Size(g) && g.nodes[i].isGroup && pos <= |g.nodes[i].kids|
    requires !Hollow(g, i) ==> Open(g, st, i)
    ensures GoodChoice(g, st, i, FirstAvailable(g, st, i, pos))
    decreases i, 0, |g.nodes[i].kids| - pos
  {
    if pos == |g.nodes[i].kids| {
      PassedStay(g, st, i);
    } else {
      var k := Kid(g, i, pos);
      assert NodeOk(g, i) && NodeOk(g, k);
      if !Hollow(g, k) {
        HollowUp(g, k);
        assert OpenUp(g, st, k);
      }
      GetAvailableKeeps(g, st, k);
      var c := GetAvailable(g, st, k);
      if c.picked.Some? {
        HollowUp(g, k);
      } else {
        if !Hollow(g, i) {
          OpenKept(g, st, c.st, i);
        }
        FirstAvailableKeeps(g, c.st, i, pos + 1);
        KeptThen(g, st, c.st, FirstAvailable(g, c.st, i, pos + 1).st);
      }
    }
  }
}
