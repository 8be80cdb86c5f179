/**
  What the actions of a compiled plan wait for besides their sequences: firewall rules for the configuration of the
  suppliers, provisioning for the chef environment, and nothing else for anything.
*/
module ComputedDependencies {
  import opened ActionGraph
  import opened ActionInvariant
  import opened ActionRuns
  import opened ActionTree
  import opened PlanOrder
  import opened PlanSchedule
  import opened Resources
  import opened CompiledPlans

  /** The k-th action of the plan is the first that creates an environment. */
  ghost predicate FirstEnvironment(p: Plan<Op>, k: nat) {
    k < |Ops(p)| && Ops(p)[k].CreateEnvironment? && forall m :: 0 <= m < k ==> !Ops(p)[m].CreateEnvironment?
  }

  /** The k-th action of the plan is the first that configures the machine at this place. */
  ghost predicate FirstConfiguration(p: Plan<Op>, path: Path, k: nat) {
    && k < |Ops(p)| && Ops(p)[k].ConfigureVm? && Ops(p)[k].path == path
    && forall m :: 0 <= m < k ==> !(Ops(p)[m].ConfigureVm? && Ops(p)[m].path == path)
  }

  /** An action waits for the k-th one: to provision a machine, or to let it in where it asks for that. */
  ghost predicate AsksFor(p: Plan<Op>, op: Op, k: nat) {
    || (op.ProvisionVm? && FirstEnvironment(p, k))
    || (op.CreateFirewallRules? && exists supply :: supply in op.supplies && FirstConfiguration(p, [supply.name], k))
  }

  lemma {:induction false} FirstIs(ops: seq<Op>, t: Sought, k: nat)
    ensures FirstMeeting(ops, t) == Some(k) <==> k < |ops| && Meets(ops[k], t) && forall m :: 0 <= m < k ==> !Meets(ops[m], t)
    decreases |ops|
  {
    if ops != [] && !Meets(ops[0], t) {
      if k > 0 {
        FirstIs(ops[1..], t, k - 1);
        assert forall m :: 0 < m < |ops| ==> ops[1..][m - 1] == ops[m];
      }
    }
  }

  lemma {:induction false} AsksIff(p: Plan<Op>, op: Op, k: nat)
    ensures k in Found(Ops(p), SoughtBy(op)) <==> AsksFor(p, op, k)
  {
    var ops, ts := Ops(p), SoughtBy(op);
    FoundAre(ops, ts, k);
    forall t ensures FirstMeeting(ops, t) == Some(k) <==>
                     k < |ops| && Meets(ops[k], t) && forall m :: 0 <= m < k ==> !Meets(ops[m], t) {
      FirstIs(ops, t, k);
    }
    if n :| 0 <= n < |ts| && FirstMeeting(ops, ts[n]) == Some(k) {
      if op.CreateFirewallRules? {
        var supply := op.supplies[n];
        assert ts[n] == ConfigurationOf([supply.name]);
        assert FirstConfiguration(p, [supply.name], k);
      }
    }
    if op.ProvisionVm? && FirstEnvironment(p, k) {
      assert ts[0] == AnyEnvironment;
    }
    if op.CreateFirewallRules? {
      forall supply | supply in op.supplies && FirstConfiguration(p, [supply.name], k)
        ensures exists n :: 0 <= n < |ts| && FirstMeeting(ops, ts[n]) == Some(k)
      {
        var n :| 0 <= n < |op.supplies| && op.supplies[n] == supply;
        assert ts[n] == ConfigurationOf([supply.name]);
      }
    }
  }

  /** The dependencies that the single actions of a compiled plan compute are exactly the ones they ask for. */
  lemma {:induction false} ComputesExactly(p: Plan<Op>, i: Id, c: Id)
    requires i < Size(CompiledGraph(p))
    ensures |Leaves(p, 0)| == |Ops(p)|
    ensures c in CompiledGraph(p).nodes[i].computed <==>
            OpAt(p, 0, i).Some? && exists k :: 0 <= k < |Ops(p)| && Leaves(p, 0)[k] == c && AsksFor(p, OpAt(p, 0, i).value, k)
  {
    hide AsksFor, SoughtBy, FirstMeeting;
    LeavesCount(p, 0);
    var op := OpAt(p, 0, i);
    if op.Some? {
      var found := Found(Ops(p), SoughtBy(op.value));
      var numbers := Numbers(Leaves(p, 0), found);
      assert CompiledGraph(p).nodes[i].computed == numbers;
      forall k: nat ensures k in found <==> AsksFor(p, op.value, k) {
        AsksIff(p, op.value, k);
      }
      if c in numbers {
        var n :| 0 <= n < |numbers| && numbers[n] == c;
        assert found[n] in found && Leaves(p, 0)[found[n]] == c;
      }
      if k :| 0 <= k < |Ops(p)| && Leaves(p, 0)[k] == c && AsksFor(p, op.value, k) {
        var n :| 0 <= n < |found| && found[n] == k;
        assert numbers[n] == c;
      }
    }
  }

  /** The number of the first configuration of a machine, and of the first creation of an environment, if there is one. */
  ghost function ConfigurationOfAt(p: Plan<Op>, path: Path): seq<Id> {
    LeavesCount(p, 0);
    if exists k: nat :: FirstConfiguration(p, path, k) then
      var k: nat :| FirstConfiguration(p, path, k);
      [Leaves(p, 0)[k]]
    else []
  }

  ghost function EnvironmentAt(p: Plan<Op>): seq<Id> {
    LeavesCount(p, 0);
    if exists k: nat :: FirstEnvironment(p, k) then
      var k: nat :| FirstEnvironment(p, k);
      [Leaves(p, 0)[k]]
    else []
  }

  ghost function SuppliersAt(p: Plan<Op>, supplies: seq<Supply>): seq<Id> {
    if supplies == [] then [] else ConfigurationOfAt(p, [supplies[0].name]) + SuppliersAt(p, supplies[1..])
  }

  lemma {:induction false} FirstFound(p: Plan<Op>, t: Sought)
    ensures |Leaves(p, 0)| == |Ops(p)|
    ensures (match FirstMeeting(Ops(p), t) case Some(k) => [Leaves(p, 0)[k]] case None => [])
         == (match t case ConfigurationOf(path) => ConfigurationOfAt(p, path) case AnyEnvironment => EnvironmentAt(p))
  {
    LeavesCount(p, 0);
    forall k: nat ensures FirstMeeting(Ops(p), t) == Some(k) <==>
                          match t case ConfigurationOf(path) => FirstConfiguration(p, path, k) case AnyEnvironment => FirstEnvironment(p, k) {
      FirstIs(Ops(p), t, k);
    }
  }

  lemma {:induction false} NumbersJoin(leaves: seq<Id>, a: seq<nat>, b: seq<nat>)
    requires forall k :: k in a + b ==> k < |leaves|
    ensures (forall k :: k in a ==> k < |leaves|) && (forall k :: k in b ==> k < |leaves|)
    ensures Numbers(leaves, a + b) == Numbers(leaves, a) + Numbers(leaves, b)
  {
    assert forall k :: k in a || k in b ==> k in a + b;
  }

  lemma {:induction false} SuppliersFound(p: Plan<Op>, supplies: seq<Supply>)
    ensures |Leaves(p, 0)| == |Ops(p)|
    ensures Numbers(Leaves(p, 0), Found(Ops(p), SuppliersOf(supplies))) == SuppliersAt(p, supplies)
    decreases |supplies|
  {
    hide Ops, Leaves, FirstMeeting, ConfigurationOfAt;
    LeavesCount(p, 0);
    if supplies != [] {
      var t := ConfigurationOf([supplies[0].name]);
      var first, rest := FirstMeeting(Ops(p), t), Found(Ops(p), SuppliersOf(supplies[1..]));
      FirstFound(p, t);
      SuppliersFound(p, supplies[1..]);
      assert SuppliersOf(supplies) == [t] + SuppliersOf(supplies[1..]) && ([t] + SuppliersOf(supplies[1..]))[1..] == SuppliersOf(supplies[1..]);
      var own := if first.Some? then [first.value] else [];
      assert Found(Ops(p), SuppliersOf(supplies)) == own + rest;
      NumbersJoin(Leaves(p, 0), own, rest);
    }
  }

  /** They are computed in the order in which the machine asks its suppliers. */
  lemma {:induction false} ComputesInOrder(p: Plan<Op>, i: Id)
    requires i < Size(CompiledGraph(p))
    ensures CompiledGraph(p).nodes[i].computed ==
      match OpAt(p, 0, i)
      case Some(CreateFirewallRules(_, _, _, supplies)) => SuppliersAt(p, supplies)
      case Some(ProvisionVm(_, _)) => EnvironmentAt(p)
      case _ => []
  {
    hide Ops, Leaves, FirstMeeting, ConfigurationOfAt, SuppliersAt, OpAt, EnvironmentAt;
    LeavesCount(p, 0);
    match OpAt(p, 0, i)
    case None =>
    case Some(op) =>
      assert CompiledGraph(p).nodes[i].computed == Numbers(Leaves(p, 0), Found(Ops(p), SoughtBy(op)));
      if op.CreateFirewallRules? {
        SuppliersFound(p, op.supplies);
      } else if op.ProvisionVm? {
        FirstFound(p, AnyEnvironment);
        var first := FirstMeeting(Ops(p), AnyEnvironment);
        assert SoughtBy(op) == [AnyEnvironment] && [AnyEnvironment][1..] == [];
        var own := if first.Some? then [first.value] else [];
        assert Found(Ops(p), [AnyEnvironment]) == own + [] == own;
      }
  }

  lemma {:induction false} AskedHasEnded(p: Plan<Op>, run: seq<System>, n: nat, i: Id, k: nat)
    requires TamePlan(p) && WellFormed(CompiledGraph(p)) && IsRun(CompiledGraph(p), run) && n < |run|
    requires i < Size(CompiledGraph(p)) && run[n].st[i] in {Running, Successful, Failed}
    requires OpAt(p, 0, i).Some? && AsksFor(p, OpAt(p, 0, i).value, k)
    ensures k < |Ops(p)| == |Leaves(p, 0)| && Leaves(p, 0)[k] < Size(CompiledGraph(p))
    ensures run[n].st[Leaves(p, 0)[k]] == Successful
  {
    hide CompiledGraph, TamePlan, Placed, Follows, Tame;
    var g := CompiledGraph(p);
    CompiledRealizes(p);
    GroupHasNoOp(g, p, i);
    LeavesCount(p, 0);
    ComputesExactly(p, i, Leaves(p, 0)[k]);
    LeafIsSingle(g, p, Leaves(p, 0)[k]);
    DependencySafety(g, run, n, i);
  }

  /** No machine is provisioned before the first creation of a chef environment in the plan has ended well. */
  lemma {:induction false} EnvironmentFirst(p: Plan<Op>, run: seq<System>, n: nat, i: Id, k: nat)
    requires TamePlan(p) && WellFormed(CompiledGraph(p)) && IsRun(CompiledGraph(p), run) && n < |run|
    requires i < Size(CompiledGraph(p)) && run[n].st[i] in {Running, Successful, Failed}
    requires OpAt(p, 0, i).Some? && OpAt(p, 0, i).value.ProvisionVm?
    requires k < |Ops(p)| && Ops(p)[k].CreateEnvironment? && forall m :: 0 <= m < k ==> !Ops(p)[m].CreateEnvironment?
    ensures |Leaves(p, 0)| == |Ops(p)| && Leaves(p, 0)[k] < Size(CompiledGraph(p))
    ensures OpAt(p, 0, Leaves(p, 0)[k]) == Some(Ops(p)[k]) && run[n].st[Leaves(p, 0)[k]] == Successful
  {
    hide CompiledGraph, TamePlan, IsRun;
    AskedHasEnded(p, run, n, i, k);
    LeafOp(p, 0, k);
  }

  /** No rules are made before the first configuration of each supplier in the plan has ended well. */
  lemma {:induction false} SuppliersFirst(p: Plan<Op>, run: seq<System>, n: nat, i: Id, supply: Supply, k: nat)
    requires TamePlan(p) && WellFormed(CompiledGraph(p)) && IsRun(CompiledGraph(p), run) && n < |run|
    requires i < Size(CompiledGraph(p)) && run[n].st[i] in {Running, Successful, Failed}
    requires OpAt(p, 0, i).Some? && OpAt(p, 0, i).value.CreateFirewallRules? && supply in OpAt(p, 0, i).value.supplies
    requires k < |Ops(p)| && Ops(p)[k].ConfigureVm? && Ops(p)[k].path == [supply.name]
    requires forall m :: 0 <= m < k ==> !(Ops(p)[m].ConfigureVm? && Ops(p)[m].path == [supply.name])
    ensures |Leaves(p, 0)| == |Ops(p)| && Leaves(p, 0)[k] < Size(CompiledGraph(p))
    ensures OpAt(p, 0, Leaves(p, 0)[k]) == Some(Ops(p)[k]) && run[n].st[Leaves(p, 0)[k]] == Successful
  {
    hide CompiledGraph, TamePlan, IsRun;
    assert FirstConfiguration(p, [supply.name], k);
    AskedHasEnded(p, run, n, i, k);
    LeafOp(p, 0, k);
  }
}
