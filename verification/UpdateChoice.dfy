/**
  When an update of a machine recreates it, said of the parameters alone, and what becomes of them either way.
*/
module UpdateChoice {
  import opened ActionGraph
  import opened ActionTree
  import opened PlanSchedule
  import opened Resources
  import opened Deployers
  import opened Convergence
  import opened UpdatePlans

  /** Some parameter that cannot be configured is given on both sides, with different values. */
  ghost predicate Conflicting(was: map<string, string>, params: map<string, string>, fixed: set<string>) {
    exists k :: k in fixed && k in was && k in params && was[k] != params[k]
  }

  /** The actions of an update, one by one: either everything is removed and made again, or all is done in place. */
  lemma {:induction false} MachineUpdateOps(s: Settings, b: Deployment, a: Deployment, path: Path)
    requires b.Vm? && a.Vm?
    ensures OpsOf(UpdatePlan(s, b, a, path)) ==
      if path in s.failed || Conflicting(b.params, a.params, s.fixed) then
        [DeleteChefNode(path), DeleteVm(path), CreateVm(path, a.params)]
        + (if s.configureOnCreate then [ConfigureVm(path, a.params, s.fixed)] else [])
        + (if s.firewalled then [CreateFirewallRules(path, a.rules, a.node, a.supplies)] else [])
        + [ProvisionVm(path, a.runlist)]
      else
        [UpdateVm(path, a.params, s.fixed)]
        + (if a.force || s.envStale || b.runlist != a.runlist then [ProvisionVm(path, a.runlist)] else [])
  {
    UpdateVmOps(s, b, a, path);
    VmDeleteOps(s, b, path);
    VmCreateOps(s, a, path);
    assert Recreated(s, b, a, path) <==> path in s.failed || Conflicting(b.params, a.params, s.fixed);
  }

  /**
    The old machine is deleted exactly if something failed on it, or a parameter that cannot be configured is given on
    both sides with different values; otherwise it is updated in place.
  */
  lemma {:induction false} RecreatesIff(s: Settings, b: Deployment, a: Deployment, path: Path)
    requires b.Vm? && a.Vm?
    ensures DeleteVm(path) in OpsOf(UpdatePlan(s, b, a, path)) <==>
            path in s.failed || exists k :: k in s.fixed && k in b.params && k in a.params && b.params[k] != a.params[k]
    ensures DeleteVm(path) in OpsOf(UpdatePlan(s, b, a, path)) <==> UpdateVm(path, a.params, s.fixed) !in OpsOf(UpdatePlan(s, b, a, path))
  {
    hide UpdatePlan;
    MachineUpdateOps(s, b, a, path);
    if path in s.failed || Conflicting(b.params, a.params, s.fixed) {
      var first := [DeleteChefNode(path), DeleteVm(path), CreateVm(path, a.params)];
      assert first[1] == DeleteVm(path);
    } else {
      assert [UpdateVm(path, a.params, s.fixed)][0] == UpdateVm(path, a.params, s.fixed);
    }
  }

  /**
    An update leaves a machine with the new parameters exactly if it recreates it, or the two sides give the same of
    those that cannot be configured. So with the same such names on both sides it always does.
  */
  lemma {:induction false} ParametersLeft(s: Settings, b: Deployment, a: Deployment, path: Path)
    requires b.Vm? && a.Vm?
    ensures Trail(OpsOf(UpdatePlan(s, b, a, path)), Resource(path, Machine), Some(Parameters(b.params))) == Some(Parameters(a.params)) <==>
            || path in s.failed
            || (exists k :: k in s.fixed && k in b.params && k in a.params && b.params[k] != a.params[k])
            || (forall k :: k in s.fixed ==> (k in b.params <==> k in a.params))
  {
    hide UpdatePlan, Trail;
    var r: PlainResource := Resource(path, Machine);
    MachineUpdateOps(s, b, a, path);
    if path in s.failed || Conflicting(b.params, a.params, s.fixed) {
      MadeAnew(s, b, a, path);
    } else {
      SameFixedReconfigured(b.params, a.params, s.fixed);
      assert SameFixed(b.params, a.params, s.fixed) <==> forall k :: k in s.fixed ==> (k in b.params <==> k in a.params) by {
        SameFixedNames(b.params, a.params, s.fixed);
      }
      var update, provision := UpdateVm(path, a.params, s.fixed), ProvisionVm(path, a.runlist);
      assert [update] + [] == [update] && [update] + [provision] == [update, provision];
      TrailTwo(update, provision, r, Some(Parameters(b.params)));
    }
  }

  lemma {:induction false} SameFixedNames(was: map<string, string>, params: map<string, string>, fixed: set<string>)
    requires !Conflicting(was, params, fixed)
    ensures SameFixed(was, params, fixed) <==> forall k :: k in fixed ==> (k in was <==> k in params)
  {
  }

  lemma {:induction false} MadeAnew(s: Settings, b: Deployment, a: Deployment, path: Path)
    requires b.Vm? && a.Vm? && (path in s.failed || Conflicting(b.params, a.params, s.fixed))
    ensures Trail(OpsOf(UpdatePlan(s, b, a, path)), Resource(path, Machine), Some(Parameters(b.params))) == Some(Parameters(a.params))
  {
    hide UpdateMachine, Trail;
    var r: PlainResource := Resource(path, Machine);
    UpdateVmLeaves(s, b, a, path, r);
    assert Recreated(s, b, a, path);
    assert At(s, b, path, r) == Some(Parameters(b.params)) && At(s, a, path, r) == Some(Parameters(a.params));
  }
}
