/**
  The rules that let single nodes in: which of them a run of a plan leaves. They are made by actions of the
  machines that ask for them, in any order, and removed with the machine whose firewall holds them.
*/
module FirewallRules {
  import opened ActionGraph
  import opened ActionInvariant
  import opened ActionRuns
  import opened ActionHistory
  import opened ActionProgress
  import opened ActionStuck
  import opened ActionSettle
  import opened ActionTree
  import opened PlanOrder
  import opened PlanSchedule
  import opened Resources
  import opened Deployers
  import opened Convergence
  import opened UpdatePlans
  import opened LevelOrder
  import opened CompiledPlans
  import opened Machines
  import opened Hostages
  import opened HostageRuns

  type RuleResource = r: Resource | r.part.Rule? witness Resource([], Rule("", 0))

  predicate Revokes(op: Op, r: Resource) {
    op.DeleteVm? && op.path == r.path
  }

  /**
    An action that makes rules lets its own node in at each supplier, on the port of its endpoint, and nobody else
    anywhere; besides it makes the rules of its own machine.
  */
  lemma {:induction false} RulesMade(op: Op, w: World, r: Resource)
    requires op.CreateFirewallRules?
    ensures Get(Apply(op, w), r) ==
      match r.part
      case Rule(node, port) =>
        if node == op.node && exists supply :: supply in op.supplies && r.path == [supply.name] && supply.port == port then Some(Allowed)
        else Get(w, r)
      case Firewall => if r.path == op.path then Some(Text(op.rules)) else Get(w, r)
      case _ => Get(w, r)
  {
    if r.part.Rule? {
      forall supply | supply in op.supplies
        ensures r == RuleFor(op.node, supply) <==> r.part.node == op.node && r.path == [supply.name] && supply.port == r.part.port
      {
      }
    }
  }

  /** The actions with these numbers that make the rule, and those that revoke it. */
  predicate MakesAt(p: Plan<Op>, i: Id, r: Resource) {
    OpAt(p, 0, i).Some? && Allows(OpAt(p, 0, i).value, r)
  }

  predicate RevokesAt(p: Plan<Op>, i: Id, r: Resource) {
    OpAt(p, 0, i).Some? && Revokes(OpAt(p, 0, i).value, r)
  }

  lemma {:induction false} EffectOnRule(op: Op, r: RuleResource, v: Option<Value>)
    ensures Effect(op, r, v) == if Allows(op, r) then Some(Allowed) else if Revokes(op, r) then None else v
  {
  }

  lemma {:induction false} TrailRest(p: Plan<Op>, ids: seq<Id>, r: RuleResource, v: Option<Value>)
    requires ids != []
    ensures Trail(OpsAt(p, 0, ids), r, v)
         == Trail(OpsAt(p, 0, ids[1..]), r, if MakesAt(p, ids[0], r) then Some(Allowed) else if RevokesAt(p, ids[0], r) then None else v)
  {
    hide Allows, Revokes, Effect;
    var op, rest := OpAt(p, 0, ids[0]), OpsAt(p, 0, ids[1..]);
    if op.Some? {
      assert OpsAt(p, 0, ids) == [op.value] + rest && ([op.value] + rest)[1..] == rest;
      EffectOnRule(op.value, r, v);
    } else {
      assert OpsAt(p, 0, ids) == [] + rest == rest;
    }
  }

  /** A rule that nothing revokes stays; one that nothing makes stays away. */
  lemma {:induction false} TrailStays(p: Plan<Op>, ids: seq<Id>, r: RuleResource, v: Option<Value>)
    requires (forall m :: 0 <= m < |ids| && MakesAt(p, ids[m], r) ==> v == Some(Allowed))
    requires (forall m :: 0 <= m < |ids| && RevokesAt(p, ids[m], r) ==> v == None)
    ensures Trail(OpsAt(p, 0, ids), r, v) == v
    decreases |ids|
  {
    if ids != [] {
      TrailRest(p, ids, r, v);
      assert forall m :: 0 <= m < |ids| - 1 ==> ids[1..][m] == ids[m + 1];
      TrailStays(p, ids[1..], r, v);
    }
  }

  /** The rule is there if it is made and never revoked after, and is gone if it is revoked and never made after. */
  lemma {:induction false} LastDecides(p: Plan<Op>, ids: seq<Id>, r: RuleResource, v: Option<Value>, k: nat)
    requires k < |ids|
    ensures MakesAt(p, ids[k], r) && (forall m :: k < m < |ids| ==> !RevokesAt(p, ids[m], r)) ==>
      Trail(OpsAt(p, 0, ids), r, v) == Some(Allowed)
    ensures RevokesAt(p, ids[k], r) && (forall m :: k < m < |ids| ==> !MakesAt(p, ids[m], r)) ==>
      Trail(OpsAt(p, 0, ids), r, v) == None
    decreases |ids|
  {
    hide MakesAt, RevokesAt;
    TrailRest(p, ids, r, v);
    var v' := if MakesAt(p, ids[0], r) then Some(Allowed) else if RevokesAt(p, ids[0], r) then None else v;
    assert forall m :: 0 <= m < |ids| - 1 ==> ids[1..][m] == ids[m + 1];
    if k > 0 {
      LastDecides(p, ids[1..], r, v', k - 1);
      assert forall m :: k - 1 < m < |ids| - 1 ==> ids[1..][m] == ids[m + 1];
      assert ids[1..][k - 1] == ids[k];
    } else {
      MakesOrRevokes(p, ids[0], r);
      if (MakesAt(p, ids[0], r) && forall m :: 0 < m < |ids| ==> !RevokesAt(p, ids[m], r))
         || (RevokesAt(p, ids[0], r) && forall m :: 0 < m < |ids| ==> !MakesAt(p, ids[m], r)) {
        TrailStays(p, ids[1..], r, v');
      }
    }
  }

  lemma {:induction false} MakesOrRevokes(p: Plan<Op>, i: Id, r: Resource)
    ensures !(MakesAt(p, i, r) && RevokesAt(p, i, r))
  {
  }

  /** `i` ends before `j` starts, directly or by way of one other action. */
  ghost predicate EndsBefore(g: Graph, i: Id, j: Id)
    requires WellFormed(g) && i < Size(g) && j < Size(g)
  {
    Before(g, i, j) || exists k :: 0 <= k < Size(g) && !g.nodes[k].isGroup && Before(g, i, k) && Before(g, k, j)
  }

  /** If any action makes the rule, one makes it after all that revoke it. */
  ghost predicate MadeLast(g: Graph, p: Plan<Op>, r: RuleResource)
    requires WellFormed(g)
  {
    forall k :: 0 <= k < Size(g) && MakesAt(p, k, r) ==> exists j :: MadeAfter(g, p, r, j)
  }

  ghost predicate MadeAfter(g: Graph, p: Plan<Op>, r: RuleResource, j: Id)
    requires WellFormed(g)
  {
    j < Size(g) && MakesAt(p, j, r) && forall i :: 0 <= i < Size(g) && RevokesAt(p, i, r) ==> EndsBefore(g, i, j)
  }

  lemma {:induction false} EndsInOrder(g: Graph, p: Plan<Op>, run: seq<System>, i: Id, j: Id)
    requires Completed(g, p, run) && i < Size(g) && j < Size(g) && !g.nodes[i].isGroup && !g.nodes[j].isGroup && EndsBefore(g, i, j)
    ensures FirstAt(Log(run), Ended(i, true)) < FirstAt(Log(run), Ended(j, true))
  {
    hide Before, Realizes, Tame, ConflictFree, TamePlan;
    if Before(g, i, j) {
      EndsAreOrdered(g, run, i, j);
    } else {
      var k :| 0 <= k < Size(g) && !g.nodes[k].isGroup && Before(g, i, k) && Before(g, k, j);
      EndsAreOrdered(g, run, i, k);
      EndsAreOrdered(g, run, k, j);
    }
  }

  lemma {:induction false} FirstIsThere(log: seq<Event>, e: Event, y: nat)
    requires FirstAt(log, e) < y <= |log|
    ensures e in log[..y]
  {
    assert log[..y][FirstAt(log, e)] == e;
  }

  /** In a completed run actions stand in the order of their ends. */
  lemma {:induction false} EndsOnce(g: Graph, p: Plan<Op>, run: seq<System>, m: nat, n: nat)
    requires Completed(g, p, run) && m < n < |EndedWell(Log(run))|
    requires OpAt(p, 0, EndedWell(Log(run))[n]).Some?
    ensures var ids := EndedWell(Log(run)); FirstAt(Log(run), Ended(ids[m], true)) < FirstAt(Log(run), Ended(ids[n], true))
  {
    hide TamePlan, ConflictFree, Tame, Placed;
    var log, ids := Log(run), EndedWell(Log(run));
    OpAtSingle(g, p, 0, Count(p), [], [], ids[n]);
    var x, y := EndedWellPair(log, m, n);
    FirstIsFirst(log, Ended(ids[m], true), x);
    CompletedOnce(g, p, run, ids[n]);
    EndOnce(log, y, ids[n]);
    if FirstAt(log, Ended(ids[n], true)) < y {
      FirstIsThere(log, Ended(ids[n], true), y);
    }
  }

  /** An action of the plan stands somewhere in the order in which the actions of a completed run ended. */
  lemma {:induction false} EndsSomewhere(g: Graph, p: Plan<Op>, run: seq<System>, i: Id) returns (k: nat)
    requires Completed(g, p, run) && OpAt(p, 0, i).Some?
    ensures i < Size(g) && !g.nodes[i].isGroup && k < |EndedWell(Log(run))| && EndedWell(Log(run))[k] == i
  {
    hide TamePlan, ConflictFree, Tame, Placed;
    OpAtSingle(g, p, 0, Count(p), [], [], i);
    CompletedOnce(g, p, run, i);
    k :| 0 <= k < |EndedWell(Log(run))| && EndedWell(Log(run))[k] == i;
  }

  lemma {:induction false} MakerDecides(g: Graph, p: Plan<Op>, run: seq<System>, w: World, r: RuleResource, j: Id)
    requires Completed(g, p, run) && MadeAfter(g, p, r, j)
    ensures Get(Perform(OpsAt(p, 0, EndedWell(Log(run))), w), r) == Some(Allowed)
  {
    hide TamePlan, ConflictFree, Tame, EndsBefore, Placed, Allows;
    var ids := EndedWell(Log(run));
    var k := EndsSomewhere(g, p, run, j);
    forall m | k < m < |ids| ensures !RevokesAt(p, ids[m], r) {
      if RevokesAt(p, ids[m], r) {
        EndsOnce(g, p, run, k, m);
        OpAtSingle(g, p, 0, Count(p), [], [], ids[m]);
        EndsInOrder(g, p, run, ids[m], j);
      }
    }
    LastDecides(p, ids, r, Get(w, r), k);
    PerformTrail(OpsAt(p, 0, ids), w, r);
  }

  /** What a completed run leaves of a rule. */
  lemma {:induction false} RuleOutcome(g: Graph, p: Plan<Op>, run: seq<System>, w: World, r: RuleResource)
    requires Completed(g, p, run) && MadeLast(g, p, r)
    ensures Get(Perform(OpsAt(p, 0, EndedWell(Log(run))), w), r) ==
      if exists op :: op in Ops(p) && Allows(op, r) then Some(Allowed)
      else if exists op :: op in Ops(p) && Revokes(op, r) then None
      else Get(w, r)
  {
    hide Realizes, TamePlan, ConflictFree, WellFormed, Tame, Follows, MadeAfter, Allows, OpsAt;
    var ids := EndedWell(Log(run));
    forall m | 0 <= m < |ids|
      ensures MakesAt(p, ids[m], r) ==> exists op :: op in Ops(p) && Allows(op, r)
      ensures RevokesAt(p, ids[m], r) ==> exists op :: op in Ops(p) && Revokes(op, r)
    {
      if OpAt(p, 0, ids[m]).Some? {
        ActionAt(p, ids[m]);
      }
    }
    PerformTrail(OpsAt(p, 0, ids), w, r);
    if op :| op in Ops(p) && Allows(op, r) {
      var i := OpHasNumber(p, op);
      var _ := EndsSomewhere(g, p, run, i);
      assert MakesAt(p, i, r);
      var j :| MadeAfter(g, p, r, j);
      MakerDecides(g, p, run, w, r, j);
    } else if op :| op in Ops(p) && Revokes(op, r) {
      var i := OpHasNumber(p, op);
      var k := EndsSomewhere(g, p, run, i);
      LastDecides(p, ids, r, Get(w, r), k);
    } else {
      TrailStays(p, ids, r, Get(w, r));
    }
  }

  /** A run in which all that makes a rule ends before something that revokes it leaves none. */
  lemma {:induction false} RevokedOutcome(g: Graph, p: Plan<Op>, run: seq<System>, w: World, r: RuleResource, i: Id)
    requires Completed(g, p, run) && RevokesAt(p, i, r)
    requires forall j :: MakesAt(p, j, r) ==> FirstAt(Log(run), Ended(j, true)) < FirstAt(Log(run), Ended(i, true))
    ensures Get(Perform(OpsAt(p, 0, EndedWell(Log(run))), w), r) == None
  {
    hide Realizes, TamePlan, ConflictFree, WellFormed, Tame, Follows, Allows, OpsAt;
    var ids := EndedWell(Log(run));
    var k := EndsSomewhere(g, p, run, i);
    forall m | k < m < |ids| ensures !MakesAt(p, ids[m], r) {
      if MakesAt(p, ids[m], r) {
        EndsOnce(g, p, run, k, m);
      }
    }
    LastDecides(p, ids, r, Get(w, r), k);
    PerformTrail(OpsAt(p, 0, ids), w, r);
  }
}
