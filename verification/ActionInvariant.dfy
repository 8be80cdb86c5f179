/**
  What every status table of a running plan satisfies, and the two kinds of
  write that keep it.
*/
module ActionInvariant {
  import opened ActionGraph

  // ------------------------------------------------------------------------
  // Groups with nothing to run
  // ------------------------------------------------------------------------

  /** A group below which there is no single action: it is SUCCESSFUL as soon as it is asked. */
  predicate Hollow(g: Graph, i: Id)
    requires WellFormed(g) && i < Size(g)
    decreases i
  {
    assert NodeOk(g, i);
    g.nodes[i].isGroup && forall k | k in g.nodes[i].kids :: Hollow(g, k)
  }

  /** A hollow group that a failure can still reach through the actions it waits for. */
  predicate Exposed(g: Graph, i: Id)
    requires WellFormed(g) && i < Size(g)
    decreases i
  {
    assert NodeOk(g, i);
    Hollow(g, i) && exists d | d in g.nodes[i].depends :: !Hollow(g, d) || Exposed(g, d)
  }

  /** The action, if it runs something, does not wait for an exposed group. */
  predicate TameAt(g: Graph, i: Id)
    requires WellFormed(g) && i < Size(g)
  {
    assert NodeOk(g, i);
    !Hollow(g, i) ==> forall d | d in g.nodes[i].depends :: !Exposed(g, d)
  }

  predicate Tame(g: Graph)
    requires WellFormed(g)
  {
    forall i | 0 <= i < Size(g) :: TameAt(g, i)
  }

  // ------------------------------------------------------------------------
  // The invariant
  // ------------------------------------------------------------------------

  /** The action and all groups around it have their static dependencies SUCCESSFUL. */
  ghost predicate Open(g: Graph, st: Statuses, i: Id)
    requires Fits(g, st) && i < Size(g)
    decreases Size(g) - i
  {
    assert NodeOk(g, i);
    && (forall d :: d in g.nodes[i].depends ==> st[d] == Successful)
    && OpenUp(g, st, i)
  }

  ghost predicate OpenUp(g: Graph, st: Statuses, i: Id)
    requires Fits(g, st) && i < Size(g)
    decreases Size(g) - i, 0
  {
    assert NodeOk(g, i);
    g.up[i] == Size(g) || Open(g, st, g.up[i])
  }

  predicate Begun(s: Status) {
    s == Running || s == Successful || s == Failed
  }

  ghost predicate BegunIsOpen(g: Graph, st: Statuses, i: Id)
    requires Fits(g, st) && i < Size(g)
  {
    !Hollow(g, i) ==>
      && (Begun(st[i]) ==> Open(g, st, i))
      && (st[i] == NotRun ==> OpenUp(g, st, i))
  }

  ghost predicate GroupAgrees(g: Graph, st: Statuses, i: Id)
    requires Fits(g, st) && i < Size(g) && g.nodes[i].isGroup
  {
    assert NodeOk(g, i);
    var kids := g.nodes[i].kids;
    match st[i]
    case Successful => forall k :: k in kids ==> st[k] == Successful
    case Failed => (forall k :: k in kids ==> Done(st[k])) && exists k :: k in kids && Bad(st[k])
    case Running => exists k :: k in kids && !Hollow(g, k) && Begun(st[k])
    case _ => true
  }

  ghost predicate FailureSpreads(g: Graph, st: Statuses, i: Id)
    requires Fits(g, st) && i < Size(g)
  {
    assert NodeOk(g, i);
    && (Bad(st[i]) ==> forall r :: r in g.nodes[i].requiredBy ==> st[r] == NotRun)
    && (st[i] == NotRun ==>
          exists d :: d in Dependencies(g.nodes[i]) && Bad(st[d]))
    && (Hollow(g, i) ==> !(st[i] in {Running, Failed}) && (st[i] == NotRun ==> Exposed(g, i)))
  }

  ghost predicate ComputedMet(g: Graph, st: Statuses, i: Id)
    requires Fits(g, st) && i < Size(g)
  {
    assert NodeOk(g, i);
    forall c :: c in g.nodes[i].computed ==> st[c] == Successful
  }

  ghost predicate NodeInv(g: Graph, st: Statuses, i: Id)
    requires Fits(g, st) && i < Size(g)
  {
    && BegunIsOpen(g, st, i)
    && (g.nodes[i].isGroup ==> GroupAgrees(g, st, i))
    && FailureSpreads(g, st, i)
    && (Begun(st[i]) ==> ComputedMet(g, st, i))
  }

  /** Nothing is FAILED or NOT_RUN unless some single action FAILED. */
  ghost predicate HasCulprit(g: Graph, st: Statuses)
    requires Fits(g, st)
  {
    (exists i :: 0 <= i < Size(g) && Bad(st[i])) ==>
      exists i :: 0 <= i < Size(g) && !g.nodes[i].isGroup && st[i] == Failed
  }

  ghost predicate Inv(g: Graph, st: Statuses) {
    && Fits(g, st)
    && (forall i :: 0 <= i < Size(g) ==> NodeInv(g, st, i))
    && HasCulprit(g, st)
  }

  // ------------------------------------------------------------------------
  // How statuses may move
  // ------------------------------------------------------------------------

  ghost predicate Onward(g: Graph, i: Id, s: Status, s': Status)
    requires WellFormed(g) && i < Size(g)
  {
    || s' == s
    || s == Pending
    || (s == Running && s' in {Successful, Failed})
    || (s in {Running, Successful} && s' == NotRun && Exposed(g, i))
  }

  /** Statuses only move onward. */
  ghost predicate Forward(g: Graph, st: Statuses, st': Statuses)
    requires Fits(g, st) && Fits(g, st')
  {
    forall i :: 0 <= i < Size(g) ==> Onward(g, i, st[i], st'[i])
  }

  /** No single action is started or ended. */
  ghost predicate Calm(g: Graph, st: Statuses, st': Statuses)
    requires Fits(g, st) && Fits(g, st')
  {
    forall i :: 0 <= i < Size(g) && !g.nodes[i].isGroup ==>
      st'[i] == st[i] || (st[i] == Pending && st'[i] == NotRun)
  }

  lemma {:induction false} ForwardTransitive(g: Graph, a: Statuses, b: Statuses, c: Statuses)
    requires Fits(g, a) && Fits(g, b) && Fits(g, c)
    requires Forward(g, a, b) && Forward(g, b, c)
    ensures Forward(g, a, c)
  {
    forall i | 0 <= i < Size(g) ensures Onward(g, i, a[i], c[i]) {
      assert Onward(g, i, a[i], b[i]) && Onward(g, i, b[i], c[i]);
    }
  }

  // ------------------------------------------------------------------------
  // What setStatus writes
  // ------------------------------------------------------------------------

  /** `x` depends, directly or not, on `i`. */
  predicate Downstream(g: Graph, i: Id, x: Id)
    requires WellFormed(g) && i < Size(g) && x < Size(g)
    decreases x
  {
    assert NodeOk(g, x);
    exists d | d in g.nodes[x].depends :: d == i || Downstream(g, i, d)
  }

  ghost predicate AtOrBelow(g: Graph, i: Id, x: Id)
    requires WellFormed(g) && i < Size(g) && x < Size(g)
  {
    x == i || Downstream(g, i, x)
  }

  lemma {:induction false} DownstreamShape(g: Graph, i: Id, x: Id)
    requires WellFormed(g) && i < Size(g) && x < Size(g) && Downstream(g, i, x)
    ensures i < x && g.up[x] == g.up[i]
    decreases x
  {
    assert NodeOk(g, x);
    var d :| d in g.nodes[x].depends && (d == i || Downstream(g, i, d));
    if d != i {
      DownstreamShape(g, i, d);
    }
  }

  lemma {:induction false} DownstreamStep(g: Graph, i: Id, r: Id, x: Id)
    requires WellFormed(g) && i < Size(g) && x < Size(g)
    requires r in g.nodes[i].requiredBy && r < Size(g) && AtOrBelow(g, r, x)
    ensures Downstream(g, i, x)
    decreases x
  {
    assert NodeOk(g, x) && NodeOk(g, i);
    if x != r {
      var d :| d in g.nodes[x].depends && (d == r || Downstream(g, r, d));
      DownstreamStep(g, i, r, d);
    }
  }

  lemma {:induction false} DownstreamFirst(g: Graph, i: Id, x: Id) returns (r: Id)
    requires WellFormed(g) && i < Size(g) && x < Size(g) && Downstream(g, i, x)
    ensures r in g.nodes[i].requiredBy && r < Size(g) && AtOrBelow(g, r, x)
    decreases x
  {
    assert NodeOk(g, x) && NodeOk(g, i);
    var d :| d in g.nodes[x].depends && (d == i || Downstream(g, i, d));
    if d == i {
      r := x;
    } else {
      r := DownstreamFirst(g, i, d);
      assert AtOrBelow(g, r, x);
    }
  }

  /** `setStatus` writes the action and, on a failure, NOT_RUN on everything downstream of it. */
  lemma {:induction false} SetStatusWrites(g: Graph, st: Statuses, i: Id, s: Status)
    requires Fits(g, st) && i < Size(g)
    ensures forall x :: 0 <= x < Size(g) ==>
      SetStatus(g, st, i, s)[x] ==
        if x == i then s else if Bad(s) && Downstream(g, i, x) then NotRun else st[x]
    decreases Size(g) - i, 1, 0
  {
    assert NodeOk(g, i);
    var st1 := st[i := s];
    if Bad(s) {
      var rs := g.nodes[i].requiredBy;
      NotRunAllWrites(g, st1, i, rs);
      forall x | 0 <= x < Size(g)
        ensures SetStatus(g, st, i, s)[x] ==
          if x == i then s else if Downstream(g, i, x) then NotRun else st[x]
      {
        if exists r :: r in rs && AtOrBelow(g, r, x) {
          var r :| r in rs && AtOrBelow(g, r, x);
          DownstreamStep(g, i, r, x);
          DownstreamShape(g, i, x);
        } else if Downstream(g, i, x) {
          var r := DownstreamFirst(g, i, x);
          assert false;
        }
      }
    }
  }

  lemma {:induction false} NotRunAllWrites(g: Graph, st: Statuses, i: Id, rs: seq<Id>)
    requires Fits(g, st) && i < Size(g) && forall r :: r in rs ==> i < r < Size(g)
    ensures forall x :: 0 <= x < Size(g) ==>
      NotRunAll(g, st, i, rs)[x] ==
        if exists r :: r in rs && AtOrBelow(g, r, x) then NotRun else st[x]
    decreases Size(g) - i, 0, |rs|
  {
    if rs != [] {
      assert rs[0] in rs && forall r :: r in rs[1..] ==> r in rs;
      assert forall r :: r in rs ==> r == rs[0] || r in rs[1..];
      SetStatusWrites(g, st, rs[0], NotRun);
      NotRunAllWrites(g, SetStatus(g, st, rs[0], NotRun), i, rs[1..]);
    }
  }

  // ------------------------------------------------------------------------
  // Hollow groups
  // ------------------------------------------------------------------------

  lemma {:induction false} HollowUp(g: Graph, i: Id)
    requires WellFormed(g) && i < Size(g) && !Hollow(g, i) && g.up[i] < Size(g)
    ensures !Hollow(g, g.up[i])
  {
    assert NodeOk(g, i);
  }

  /** Inside a hollow group nothing is exposed. */
  lemma {:induction false} HollowShelters(g: Graph, i: Id)
    requires WellFormed(g) && i < Size(g) && g.up[i] < Size(g) && Hollow(g, g.up[i])
    ensures !Exposed(g, i)
    decreases i
  {
    assert NodeOk(g, i);
    forall d | d in g.nodes[i].depends ensures Hollow(g, d) && !Exposed(g, d) {
      assert NodeOk(g, d);
      HollowShelters(g, d);
    }
  }

  // ------------------------------------------------------------------------
  // Writes that keep the invariant
  // ------------------------------------------------------------------------

  /** What was SUCCESSFUL stays so, but for exposed groups: then what was open stays open. */
  lemma {:induction false} OpenStays(g: Graph, st: Statuses, st': Statuses, i: Id)
    requires Fits(g, st) && Fits(g, st') && Tame(g) && i < Size(g) && !Hollow(g, i)
    requires forall x :: 0 <= x < Size(g) && st[x] == Successful && !Exposed(g, x) ==> st'[x] == Successful
    ensures Open(g, st, i) ==> Open(g, st', i)
    ensures OpenUp(g, st, i) ==> OpenUp(g, st', i)
    decreases Size(g) - i
  {
    assert NodeOk(g, i) && TameAt(g, i);
    if g.up[i] < Size(g) {
      HollowUp(g, i);
      OpenStays(g, st, st', g.up[i]);
      assert OpenUp(g, st, i) == Open(g, st, g.up[i]);
      assert OpenUp(g, st', i) == Open(g, st', g.up[i]);
    } else {
      assert OpenUp(g, st, i) && OpenUp(g, st', i);
    }
    if Open(g, st, i) {
      assert OpenUp(g, st, i);
    }
  }

  /** A forward move without a new failure keeps the dependencies of begun actions. */
  lemma {:induction false} CalmWrite(g: Graph, st: Statuses, i: Id, s: Status)
    requires Inv(g, st) && Tame(g) && i < Size(g)
    requires (st[i] == Pending && s == Running) || (st[i] in {Pending, Running} && s == Successful)
    requires !Hollow(g, i) ==> Open(g, st, i)
    requires Hollow(g, i) ==> s == Successful
    requires ComputedMet(g, st, i)
    requires g.nodes[i].isGroup ==> GroupAgrees(g, st[i := s], i)
    ensures Inv(g, st[i := s])
    ensures Forward(g, st, st[i := s])
  {
    var st' := st[i := s];
    forall x | 0 <= x < Size(g) ensures NodeInv(g, st', x) {
      assert NodeOk(g, x) && NodeInv(g, st, x);
      if !Hollow(g, x) {
        OpenStays(g, st, st', x);
      }
      if x != i && g.nodes[x].isGroup {
        KidWrite(g, st, st', i, x);
      }
    }
  }

  lemma {:induction false} KidWrite(g: Graph, st: Statuses, st': Statuses, i: Id, x: Id)
    requires Fits(g, st) && Fits(g, st') && i < Size(g) && x < Size(g) && x != i
    requires g.nodes[x].isGroup && GroupAgrees(g, st, x)
    requires !Done(st[i]) && Begun(st'[i])
    requires st' == st[i := st'[i]]
    ensures GroupAgrees(g, st', x)
  {
    assert NodeOk(g, x);
  }

  /** Downstream of an action that is not SUCCESSFUL nothing has begun, hollow groups apart. */
  lemma {:induction false} DownstreamNotBegun(g: Graph, st: Statuses, i: Id, x: Id)
    requires Inv(g, st) && Tame(g) && i < Size(g) && x < Size(g) && Downstream(g, i, x)
    requires st[i] != Successful && (Hollow(g, i) ==> Exposed(g, i))
    ensures !Hollow(g, x) ==> !Begun(st[x])
    ensures Hollow(g, x) ==> Exposed(g, x) && st[x] != Failed
    decreases x
  {
    assert NodeOk(g, x) && TameAt(g, x) && NodeInv(g, st, x);
    var d :| d in g.nodes[x].depends && (d == i || Downstream(g, i, d));
    if d != i {
      DownstreamNotBegun(g, st, i, d);
    }
    assert Open(g, st, x) ==> st[d] == Successful;
  }

  /** A failure written again changes nothing. */
  lemma {:induction false} DownstreamOfBad(g: Graph, st: Statuses, i: Id, x: Id)
    requires Inv(g, st) && i < Size(g) && x < Size(g) && Downstream(g, i, x) && Bad(st[i])
    ensures st[x] == NotRun
    decreases x
  {
    assert NodeOk(g, x);
    var d :| d in g.nodes[x].depends && (d == i || Downstream(g, i, d));
    assert NodeInv(g, st, d);
    if d != i {
      DownstreamOfBad(g, st, i, d);
    }
    assert x in g.nodes[d].requiredBy;
  }

  lemma {:induction false} BadAgain(g: Graph, st: Statuses, i: Id)
    requires Inv(g, st) && i < Size(g) && Bad(st[i])
    ensures SetStatus(g, st, i, st[i]) == st
  {
    SetStatusWrites(g, st, i, st[i]);
    forall x | 0 <= x < Size(g) ensures SetStatus(g, st, i, st[i])[x] == st[x] {
      if x != i && Downstream(g, i, x) {
        DownstreamOfBad(g, st, i, x);
      }
    }
  }

  /** When a failure may be written on an action. */
  ghost predicate MayFail(g: Graph, st: Statuses, i: Id, s: Status)
    requires Fits(g, st) && i < Size(g)
  {
    assert NodeOk(g, i);
    match s
    case Failed =>
      && st[i] in {Pending, Running}
      && !Hollow(g, i) && Open(g, st, i) && ComputedMet(g, st, i)
      && (g.nodes[i].isGroup ==> GroupAgrees(g, st[i := Failed], i))
    case NotRun =>
      && st[i] == Pending && (!Hollow(g, i) ==> OpenUp(g, st, i))
      && exists d :: d in Dependencies(g.nodes[i]) && Bad(st[d])
    case _ => false
  }

  lemma {:induction false} MayFailExposed(g: Graph, st: Statuses, i: Id, s: Status)
    requires Inv(g, st) && i < Size(g) && MayFail(g, st, i, s)
    ensures Hollow(g, i) ==> Exposed(g, i)
  {
    assert NodeOk(g, i);
    if s == NotRun {
      var d :| d in Dependencies(g.nodes[i]) && Bad(st[d]);
      assert NodeInv(g, st, d);
    }
  }

  lemma {:induction false} FailWrite(g: Graph, st: Statuses, i: Id, s: Status)
    requires Inv(g, st) && Tame(g) && i < Size(g) && MayFail(g, st, i, s)
    ensures Inv(g, SetStatus(g, st, i, s))
    ensures Forward(g, st, SetStatus(g, st, i, s))
  {
    var st' := SetStatus(g, st, i, s);
    assert NodeOk(g, i);
    SetStatusWrites(g, st, i, s);
    MayFailExposed(g, st, i, s);
    forall x | 0 <= x < Size(g)
      ensures Onward(g, x, st[x], st'[x])
      ensures st[x] == Successful && !Exposed(g, x) ==> st'[x] == Successful
    {
      assert NodeInv(g, st, x);
      if Downstream(g, i, x) {
        DownstreamNotBegun(g, st, i, x);
      }
    }
    forall x | 0 <= x < Size(g) ensures NodeInv(g, st', x) {
      FailWriteOpen(g, st, st', i, s, x);
      if g.nodes[x].isGroup {
        FailWriteGroup(g, st, st', i, s, x);
      }
      FailWriteSpreads(g, st, st', i, s, x);
      FailWriteComputed(g, st, st', i, s, x);
    }
    if s == Failed && !g.nodes[i].isGroup {
      assert st'[i] == Failed;
    } else {
      var y :| 0 <= y < Size(g) && Bad(st[y]);
      var z :| 0 <= z < Size(g) && !g.nodes[z].isGroup && st[z] == Failed;
      assert Onward(g, z, st[z], st'[z]);
    }
  }

  ghost predicate FailWritten(g: Graph, st: Statuses, st': Statuses, i: Id, s: Status)
    requires i < Size(g)
  {
    && Inv(g, st) && Tame(g) && Fits(g, st') && MayFail(g, st, i, s)
    && Forward(g, st, st')
    && (Hollow(g, i) ==> Exposed(g, i))
    && forall x :: 0 <= x < Size(g) ==>
         st'[x] == if x == i then s else if Downstream(g, i, x) then NotRun else st[x]
  }

  lemma {:induction false} FailWriteOpen(g: Graph, st: Statuses, st': Statuses, i: Id, s: Status, x: Id)
    requires i < Size(g) && x < Size(g) && FailWritten(g, st, st', i, s)
    ensures BegunIsOpen(g, st', x)
  {
    assert NodeOk(g, x) && NodeInv(g, st, x);
    forall y | 0 <= y < Size(g) && st[y] == Successful && !Exposed(g, y)
      ensures st'[y] == Successful
    {
      assert Onward(g, y, st[y], st'[y]);
    }
    if !Hollow(g, x) {
      OpenStays(g, st, st', x);
      if x != i && Downstream(g, i, x) {
        DownstreamShape(g, i, x);
        DownstreamTame(g, i, x);
        OpenStays(g, st, st', i);
        assert OpenUp(g, st', i) == OpenUp(g, st', x);
      }
    }
  }

  /** What runs something is downstream only of what runs something. */
  lemma {:induction false} DownstreamTame(g: Graph, i: Id, x: Id)
    requires WellFormed(g) && Tame(g) && i < Size(g) && x < Size(g) && Downstream(g, i, x)
    requires !Hollow(g, x) && (Hollow(g, i) ==> Exposed(g, i))
    ensures !Hollow(g, i)
    decreases x
  {
    assert NodeOk(g, x) && TameAt(g, x);
    var d :| d in g.nodes[x].depends && (d == i || Downstream(g, i, d));
    if d != i {
      if Hollow(g, d) {
        DownstreamExposed(g, i, d);
      } else {
        DownstreamTame(g, i, d);
      }
    }
  }

  lemma {:induction false} DownstreamExposed(g: Graph, i: Id, x: Id)
    requires WellFormed(g) && i < Size(g) && x < Size(g) && Downstream(g, i, x)
    requires Hollow(g, x) && (Hollow(g, i) ==> Exposed(g, i))
    ensures Exposed(g, x)
    decreases x
  {
    assert NodeOk(g, x);
    var d :| d in g.nodes[x].depends && (d == i || Downstream(g, i, d));
    if d != i && Hollow(g, d) {
      DownstreamExposed(g, i, d);
    }
  }

  lemma {:induction false} FailWriteGroup(g: Graph, st: Statuses, st': Statuses, i: Id, s: Status, x: Id)
    requires i < Size(g) && x < Size(g) && FailWritten(g, st, st', i, s) && g.nodes[x].isGroup
    ensures GroupAgrees(g, st', x)
  {
    assert NodeOk(g, x) && NodeInv(g, st, x) && NodeOk(g, i);
    if st'[x] == Successful {
      FailWriteSuccessful(g, st, st', i, s, x);
    } else if st'[x] == Running {
      var k :| k in g.nodes[x].kids && !Hollow(g, k) && Begun(st[k]);
      if Downstream(g, i, k) {
        DownstreamNotBegun(g, st, i, k);
      }
      assert Begun(st'[k]);
    } else if st'[x] == Failed {
      FailWriteFailed(g, st, st', i, s, x);
    }
  }

  lemma {:induction false} FailWriteSuccessful(g: Graph, st: Statuses, st': Statuses, i: Id, s: Status, x: Id)
    requires i < Size(g) && x < Size(g) && FailWritten(g, st, st', i, s) && g.nodes[x].isGroup
    requires GroupAgrees(g, st, x) && st'[x] == Successful
    ensures GroupAgrees(g, st', x)
  {
    assert NodeOk(g, x) && NodeOk(g, i);
    assert g.up[i] != x;
    forall k | k in g.nodes[x].kids ensures st'[k] == Successful {
      assert st[k] == Successful && k != i;
      if Downstream(g, i, k) {
        DownstreamShape(g, i, k);
      }
    }
  }

  lemma {:induction false} FailWriteFailed(g: Graph, st: Statuses, st': Statuses, i: Id, s: Status, x: Id)
    requires i < Size(g) && x < Size(g) && FailWritten(g, st, st', i, s) && g.nodes[x].isGroup
    requires GroupAgrees(g, st, x) && st'[x] == Failed
    ensures GroupAgrees(g, st', x)
  {
    assert NodeOk(g, x) && NodeOk(g, i);
    var was := if x == i then st[i := Failed] else st;
    assert forall k :: k in g.nodes[x].kids ==> was[k] == st[k];
    forall k | k in g.nodes[x].kids
      ensures Done(st[k]) && Done(st'[k]) && (Bad(st[k]) ==> Bad(st'[k]))
    {
      assert Done(was[k]);
      assert Onward(g, k, st[k], st'[k]);
    }
    var k :| k in g.nodes[x].kids && Bad(was[k]);
    assert Bad(st'[k]);
  }

  lemma {:induction false} FailWriteSpreads(g: Graph, st: Statuses, st': Statuses, i: Id, s: Status, x: Id)
    requires i < Size(g) && x < Size(g) && FailWritten(g, st, st', i, s)
    ensures FailureSpreads(g, st', x)
  {
    assert NodeOk(g, x) && NodeInv(g, st, x) && NodeOk(g, i);
    if Bad(st'[x]) {
      forall r | r in g.nodes[x].requiredBy ensures st'[r] == NotRun {
        assert NodeOk(g, r) && x in g.nodes[r].depends;
        if x == i || Downstream(g, i, x) {
          assert Downstream(g, i, r);
          DownstreamShape(g, i, r);
        }
      }
    }
    if Downstream(g, i, x) {
      var d :| d in g.nodes[x].depends && (d == i || Downstream(g, i, d));
      DownstreamShape(g, i, x);
      if d != i {
        DownstreamShape(g, i, d);
      }
      assert d in Dependencies(g.nodes[x]) && Bad(st'[d]);
      DownstreamNotBegun(g, st, i, x);
    } else if st'[x] == NotRun {
      var d :| d in Dependencies(g.nodes[x]) && Bad(st[d]);
      assert Onward(g, d, st[d], st'[d]);
      assert Bad(st'[d]);
    }
  }

  lemma {:induction false} FailWriteComputed(g: Graph, st: Statuses, st': Statuses, i: Id, s: Status, x: Id)
    requires i < Size(g) && x < Size(g) && FailWritten(g, st, st', i, s)
    ensures Begun(st'[x]) ==> ComputedMet(g, st', x)
  {
    assert NodeOk(g, x) && NodeInv(g, st, x) && NodeOk(g, i);
    if Begun(st'[x]) {
      forall c | c in g.nodes[x].computed ensures st'[c] == Successful {
        assert Onward(g, c, st[c], st'[c]);
      }
    }
  }
}
