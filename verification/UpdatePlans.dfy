/**
  The plans that the compiler makes are tame and free of conflicts, so what holds
  for one order of their actions holds for every run of the engine.
*/
module UpdatePlans {
  import opened ActionGraph
  import opened ActionInvariant
  import opened ActionRuns
  import opened ActionTree
  import opened PlanOrder
  import opened PlanSchedule
  import opened Resources
  import opened Deployers
  import opened Convergence

  ghost predicate Sound(p: Plan<Op>) {
    TamePlan(p) && ConflictFree(p)
  }

  ghost predicate SoundAct(a: Action) {
    a.Some? ==> Sound(a.value)
  }

  // ------------------------------------------------------------------------
  // Sequences and groups of sound actions
  // ------------------------------------------------------------------------

  /** Where item `i` of the non-null actions comes from. */
  lemma {:induction false} NonNullFrom(acts: seq<Action>, i: nat) returns (n: nat)
    requires i < |NonNull(acts)|
    ensures i <= n < |acts| && acts[n] == Some(NonNull(acts)[i])
    decreases |acts|
  {
    if acts[0].Some? && i == 0 {
      n := 0;
    } else {
      n := NonNullFrom(acts[1..], if acts[0].Some? then i - 1 else i);
      n := n + 1;
    }
  }

  lemma {:induction false} NonNullPair(acts: seq<Action>, i: nat, j: nat) returns (m: nat, n: nat)
    requires i < j < |NonNull(acts)|
    ensures m < n < |acts| && acts[m] == Some(NonNull(acts)[i]) && acts[n] == Some(NonNull(acts)[j])
    decreases |acts|
  {
    if acts[0].Some? && i == 0 {
      m := 0;
      n := NonNullFrom(acts[1..], j - 1);
      n := n + 1;
    } else if acts[0].Some? {
      m, n := NonNullPair(acts[1..], i - 1, j - 1);
      m, n := m + 1, n + 1;
    } else {
      m, n := NonNullPair(acts[1..], i, j);
      m, n := m + 1, n + 1;
    }
  }

  lemma {:induction false} ItemsSound(acts: seq<Action>)
    requires forall n :: 0 <= n < |acts| ==> SoundAct(acts[n])
    ensures forall i :: 0 <= i < |NonNull(acts)| ==> Sound(NonNull(acts)[i])
  {
    forall i | 0 <= i < |NonNull(acts)| ensures Sound(NonNull(acts)[i]) {
      var n := NonNullFrom(acts, i);
      assert SoundAct(acts[n]);
    }
  }

  /** A sequence of at most two actions leaves no gap. */
  lemma {:induction false} SequenceSound(acts: seq<Action>)
    requires forall n :: 0 <= n < |acts| ==> SoundAct(acts[n])
    requires |NonNull(acts)| <= 2 || forall i :: 0 <= i < |NonNull(acts)| ==> !HollowPlan(NonNull(acts)[i])
    ensures Sound(ActionSequence(acts))
  {
    ItemsSound(acts);
  }

  lemma {:induction false} TwoSound(x: Action, y: Action)
    requires SoundAct(x) && SoundAct(y)
    ensures Sound(ActionSequence([x, y])) && Sound(ActionSequence([None, x, y]))
  {
    var none: Action := None;
    assert [none, x, y][1..] == [x, y];
    assert NonNull([none, x, y]) == NonNull([x, y]);
    SequenceSound([x, y]);
    SequenceSound([none, x, y]);
  }

  predicate ActTouches(a: Action, r: PlainResource) {
    a.Some? && PlanTouches(a.value, r)
  }

  /** No two of these actions touch the same resource. */
  ghost predicate Disjoint(acts: seq<Action>) {
    forall m, n, r: PlainResource :: 0 <= m < n < |acts| ==> !(ActTouches(acts[m], r) && ActTouches(acts[n], r))
  }

  lemma {:induction false} GroupSound(acts: seq<Action>)
    requires (forall n :: 0 <= n < |acts| ==> SoundAct(acts[n])) && Disjoint(acts)
    ensures Sound(ActionGroup(acts))
  {
    ItemsSound(acts);
    var items := NonNull(acts);
    forall i, j, r: PlainResource | 0 <= i < j < |items| ensures !(PlanTouches(items[i], r) && PlanTouches(items[j], r)) {
      var m, n := NonNullPair(acts, i, j);
      assert !(ActTouches(acts[m], r) && ActTouches(acts[n], r));
    }
  }

  lemma {:induction false} CompositeSound(children: seq<Action>, after: Action)
    requires (forall n :: 0 <= n < |children| ==> SoundAct(children[n])) && Disjoint(children) && SoundAct(after)
    ensures SoundAct(GenerateComposite(children, None, after))
  {
    GroupSound(children);
    TwoSound(Some(ActionGroup(children)), after);
    var one := if |children| > 0 then children[0] else None;
    TwoSound(one, after);
  }

  // ------------------------------------------------------------------------
  // Disjointness by name
  // ------------------------------------------------------------------------

  lemma {:induction false} TouchesAmongOps(p: Plan<Op>, r: PlainResource)
    requires PlanTouches(p, r)
    ensures !Untouched(Ops(p), r)
    decreases p, 0, 0
  {
    match p {
      case Single(op) =>
        assert Touches(Ops(p)[0], r);
      case Group(_, items) =>
        var a :| 0 <= a < |items| && PlanTouches(items[a], r);
        TouchesAmongAll(items, a, r);
    }
  }

  lemma {:induction false} TouchesAmongAll(items: seq<Plan<Op>>, a: nat, r: PlainResource)
    requires a < |items| && PlanTouches(items[a], r)
    ensures !Untouched(OpsAll(items), r)
    decreases items, 1, a
  {
    var first, rest := Ops(items[0]), OpsAll(items[1..]);
    if a == 0 {
      TouchesAmongOps(items[0], r);
      var n :| 0 <= n < |first| && Touches(first[n], r);
      assert (first + rest)[n] == first[n];
    } else {
      TouchesAmongAll(items[1..], a - 1, r);
      var n :| 0 <= n < |rest| && Touches(rest[n], r);
      assert (first + rest)[|first| + n] == rest[n];
    }
  }

  predicate Different(names: seq<string>) {
    forall i, j | 0 <= i < j < |names| :: names[i] != names[j]
  }

  /** Each action keeps to the child of its own name. */
  predicate Spread(acts: seq<Action>, path: Path, names: seq<string>) {
    && |names| == |acts|
    && Different(names)
    && forall n | 0 <= n < |acts| :: Within(OpsOf(acts[n]), path + [names[n]])
  }

  lemma {:induction false} SpreadDisjoint(acts: seq<Action>, path: Path, names: seq<string>)
    requires Spread(acts, path, names)
    ensures Disjoint(acts)
  {
    forall m, n, r: PlainResource | 0 <= m < n < |acts| ensures !(ActTouches(acts[m], r) && ActTouches(acts[n], r)) {
      if ActTouches(acts[m], r) && ActTouches(acts[n], r) {
        TouchesChild(acts[m], path, names[m], r);
        TouchesChild(acts[n], path, names[n], r);
        OneChild(path, names[m], names[n], r);
      }
    }
  }

  lemma {:induction false} TouchesChild(a: Action, path: Path, name: string, r: PlainResource)
    requires ActTouches(a, r) && Within(OpsOf(a), path + [name])
    ensures path + [name] <= r.path
  {
    TouchesAmongOps(a.value, r);
    if !(path + [name] <= r.path) {
      WithinUntouched(OpsOf(a), path + [name], r);
    }
  }

  function Names(ds: seq<Deployment>): (r: seq<string>)
    ensures |r| == |ds| && forall n :: 0 <= n < |ds| ==> r[n] == ds[n].name
  {
    if ds == [] then [] else [ds[0].name] + Names(ds[1..])
  }

  // ------------------------------------------------------------------------
  // Creation and deletion plans
  // ------------------------------------------------------------------------

  lemma {:induction false} ServiceSound(s: Settings, service: Service, proxy: string, path: Path)
    ensures SoundAct(ServiceActions(s, service, proxy, path))
  {
    GroupSound([Act(ConfigureProxy(path, proxy, service.config)),
                ActIf(service.gateway in s.firewalledGateways, OpenPorts(path, service.gateway, service.ports))]);
  }

  lemma {:induction false} HooksSound(s: Settings, service: Option<Service>, path: Path)
    ensures SoundAct(AfterCreated(s, service, path)) && SoundAct(AfterDeleted(s, service, path))
  {
    if service.Some? {
      var gateway := service.value.gateway;
      ServiceSound(s, service.value, gateway, path);
      GroupSound([Act(DeleteProxy(path, gateway)), ActIf(gateway in s.firewalledGateways, ClosePorts(path, gateway))]);
    }
  }

  lemma {:induction false} UpdateHookSound(s: Settings, before: Option<Service>, after: Option<Service>, path: Path)
    ensures SoundAct(AfterUpdated(s, before, after, path))
  {
    if after.Some? {
      HooksSound(s, before, path);
      ServiceSound(s, after.value, ProxyOf(before, after.value), path);
      TwoSound(AfterDeleted(s, before, path), ServiceActions(s, after.value, ProxyOf(before, after.value), path));
    }
  }

  lemma {:induction false} VmCreateSound(s: Settings, d: Deployment, path: Path)
    requires d.Vm?
    ensures SoundAct(CreatePlan(s, d, path))
  {
    var acts := [Act(CreateVm(path, d.params)),
                 ActIf(s.configureOnCreate, ConfigureVm(path, d.params, s.fixed)),
                 ActIf(s.firewalled, CreateFirewallRules(path, d.rules, d.node, d.supplies))];
    forall i | 0 <= i < |NonNull(acts)| ensures !HollowPlan(NonNull(acts)[i]) {
      var n := NonNullFrom(acts, i);
    }
    SequenceSound(acts);
    TwoSound(CreateMachine(s, d, path), Act(ProvisionVm(path, d.runlist)));
  }

  lemma {:induction false} CreateSound(s: Settings, d: Deployment, path: Path)
    requires WellNamed(d)
    ensures SoundAct(CreatePlan(s, d, path))
    decreases d, 0, 0
  {
    match d {
      case Vm(_, _, _, _, _, _, _) =>
        VmCreateSound(s, d, path);
      case Environment(_, _) =>
      case External(_) =>
      case Composite(_, service, children) =>
        CreateAllSound(s, children, path);
        SpreadDisjoint(CreateAll(s, children, path), path, Names(children));
        HooksSound(s, service, path);
        CompositeSound(CreateAll(s, children, path), AfterCreated(s, service, path));
    }
  }

  lemma {:induction false} CreateAllSound(s: Settings, ds: seq<Deployment>, path: Path)
    requires Children(ds)
    ensures forall n :: 0 <= n < |ds| ==> SoundAct(CreateAll(s, ds, path)[n])
    ensures Spread(CreateAll(s, ds, path), path, Names(ds))
    decreases ds, 1, |ds|
  {
    if ds != [] {
      RestDistinct(ds);
      CreateSound(s, ds[0], path + [ds[0].name]);
      CreateWithin(s, ds[0], path + [ds[0].name]);
      CreateAllSound(s, ds[1..], path);
    }
  }

  lemma {:induction false} DeleteSound(s: Settings, d: Deployment, path: Path)
    requires WellNamed(d)
    ensures SoundAct(DeletePlan(s, d, path))
    decreases d, 0, 0
  {
    match d {
      case Vm(_, _, _, _, _, _, _) =>
        TwoSound(Act(DeleteChefNode(path)), Act(DeleteVm(path)));
      case Environment(_, _) =>
      case External(_) =>
      case Composite(_, service, children) =>
        DeleteAllSound(s, children, path);
        SpreadDisjoint(DeleteAll(s, children, path), path, Names(children));
        HooksSound(s, service, path);
        CompositeSound(DeleteAll(s, children, path), AfterDeleted(s, service, path));
    }
  }

  lemma {:induction false} DeleteAllSound(s: Settings, ds: seq<Deployment>, path: Path)
    requires Children(ds)
    ensures forall n :: 0 <= n < |ds| ==> SoundAct(DeleteAll(s, ds, path)[n])
    ensures Spread(DeleteAll(s, ds, path), path, Names(ds))
    decreases ds, 1, |ds|
  {
    if ds != [] {
      RestDistinct(ds);
      DeleteSound(s, ds[0], path + [ds[0].name]);
      DeleteWithin(s, ds[0], path + [ds[0].name]);
      DeleteAllSound(s, ds[1..], path);
    }
  }

  // ------------------------------------------------------------------------
  // Update plans
  // ------------------------------------------------------------------------

  /** Sound plans, each for the child of its own name. */
  ghost predicate Named(plans: seq<Plan<Op>>, path: Path, names: seq<string>) {
    && |names| == |plans|
    && Different(names)
    && forall n :: 0 <= n < |plans| ==> Sound(plans[n]) && Within(Ops(plans[n]), path + [names[n]])
  }

  ghost predicate AllNamed(names: seq<string>, ds: seq<Deployment>, others: seq<Deployment>, matched: bool) {
    forall n :: n in names ==> ChildByName(ds, n).Some? && ChildByName(others, n).Some? == matched
  }

  lemma {:induction false} NamedCons(p: Plan<Op>, name: string, plans: seq<Plan<Op>>, path: Path, names: seq<string>)
    requires Named(plans, path, names) && Sound(p) && Within(Ops(p), path + [name]) && name !in names
    ensures Named([p] + plans, path, [name] + names)
  {
  }

  lemma {:induction false} NamedJoin(a: seq<Plan<Op>>, b: seq<Plan<Op>>, path: Path, m: seq<string>, n: seq<string>)
    requires Named(a, path, m) && Named(b, path, n) && forall x :: x in m ==> x !in n
    ensures Named(a + b, path, m + n)
  {
    forall i, j | 0 <= i < j < |m + n| ensures (m + n)[i] != (m + n)[j] {
      if i < |m| <= j {
        assert m[i] in m && n[j - |m|] in n;
      }
    }
  }

  lemma {:induction false} RestNamed(names: seq<string>, ds: seq<Deployment>, others: seq<Deployment>, matched: bool)
    requires ds != [] && Children(ds) && AllNamed(names, ds[1..], others, matched)
    ensures AllNamed(names, ds, others, matched) && ds[0].name !in names
  {
    RestDistinct(ds);
  }

  lemma {:induction false} UpdateAllNamed(s: Settings, olds: seq<Deployment>, news: seq<Deployment>, path: Path)
    returns (names: seq<string>)
    requires Children(olds) && Children(news) && forall c :: c in news ==> SameKindAs(olds, c)
    ensures Named(UpdateAll(s, olds, news, path), path, names) && AllNamed(names, news, olds, true)
    decreases news, 1, |news|
  {
    if news == [] {
      names := [];
    } else {
      RestDistinct(news);
      names := UpdateAllNamed(s, olds, news[1..], path);
      RestNamed(names, news, olds, true);
      var name := news[0].name;
      var b := ChildByName(olds, name);
      var update := if b.None? then None else UpdatePlan(s, b.value, news[0], path + [name]);
      var rest := UpdateAll(s, olds, news[1..], path);
      if update.Some? {
        assert SameKindAs(olds, news[0]);
        UpdateSound(s, b.value, news[0], path + [name]);
        UpdateWithin(s, b.value, news[0], path + [name]);
        NamedCons(update.value, name, rest, path, names);
        names := [name] + names;
      } else {
        assert UpdateAll(s, olds, news, path) == rest;
      }
    }
  }

  lemma {:induction false} CreateNewNamed(s: Settings, olds: seq<Deployment>, news: seq<Deployment>, path: Path)
    returns (names: seq<string>)
    requires Children(news)
    ensures Named(NonNull(CreateNew(s, olds, news, path)), path, names) && AllNamed(names, news, olds, false)
    decreases |news|
  {
    if news == [] {
      names := [];
    } else {
      RestDistinct(news);
      names := CreateNewNamed(s, olds, news[1..], path);
      RestNamed(names, news, olds, false);
      var name := news[0].name;
      var create := if ChildByName(olds, name).Some? then None else CreatePlan(s, news[0], path + [name]);
      var rest := NonNull(CreateNew(s, olds, news[1..], path));
      if create.Some? {
        CreateSound(s, news[0], path + [name]);
        CreateWithin(s, news[0], path + [name]);
        NamedCons(create.value, name, rest, path, names);
        names := [name] + names;
      } else {
        assert NonNull(CreateNew(s, olds, news, path)) == rest;
      }
    }
  }

  lemma {:induction false} DeleteOldNamed(s: Settings, olds: seq<Deployment>, news: seq<Deployment>, path: Path)
    returns (names: seq<string>)
    requires Children(olds)
    ensures Named(NonNull(DeleteOld(s, olds, news, path)), path, names) && AllNamed(names, olds, news, false)
    decreases |olds|
  {
    if olds == [] {
      names := [];
    } else {
      RestDistinct(olds);
      names := DeleteOldNamed(s, olds[1..], news, path);
      RestNamed(names, olds, news, false);
      var name := olds[0].name;
      var delete := if ChildByName(news, name).Some? then None else DeletePlan(s, olds[0], path + [name]);
      var rest := NonNull(DeleteOld(s, olds[1..], news, path));
      if delete.Some? {
        DeleteSound(s, olds[0], path + [name]);
        DeleteWithin(s, olds[0], path + [name]);
        NamedCons(delete.value, name, rest, path, names);
        names := [name] + names;
      } else {
        assert NonNull(DeleteOld(s, olds, news, path)) == rest;
      }
    }
  }

  lemma {:induction false} WrapAt(plans: seq<Plan<Op>>)
    ensures forall n :: 0 <= n < |plans| ==> Wrap(plans)[n] == Some(plans[n])
    decreases |plans|
  {
    if plans != [] {
      WrapAt(plans[1..]);
    }
  }

  lemma {:induction false} NamedWrap(plans: seq<Plan<Op>>, path: Path, names: seq<string>)
    requires Named(plans, path, names)
    ensures Disjoint(Wrap(plans)) && forall n :: 0 <= n < |plans| ==> SoundAct(Wrap(plans)[n])
    ensures plans != [] ==> SoundAct(OneOrGroup(plans))
  {
    WrapAt(plans);
    SpreadDisjoint(Wrap(plans), path, names);
    GroupSound(Wrap(plans));
  }

  lemma {:induction false} LevelSound(updates: seq<Plan<Op>>, creates: seq<Plan<Op>>, deletes: seq<Plan<Op>>, path: Path,
                   u: seq<string>, c: seq<string>, d: seq<string>)
    requires Named(updates, path, u) && Named(creates, path, c) && Named(deletes, path, d)
    requires forall x :: x in u ==> x !in c
    requires forall x :: x in u + c ==> x !in d
    ensures var level := LevelActions(updates, creates, deletes);
            Disjoint(level) && forall n :: 0 <= n < |level| ==> SoundAct(level[n])
  {
    if Nested(updates, creates, deletes) {
      NamedJoin(creates, updates, path, c, u);
      NamedWrap(deletes, path, d);
      NamedWrap(creates + updates, path, c + u);
      TwoSound(OneOrGroup(deletes), OneOrGroup(creates + updates));
    } else {
      NamedJoin(updates, creates, path, u, c);
      NamedJoin(updates + creates, deletes, path, u + c, d);
      NamedWrap(updates + creates + deletes, path, u + c + d);
    }
  }

  lemma {:induction false} UpdateVmSound(s: Settings, b: Deployment, a: Deployment, path: Path)
    requires b.Vm? && a.Vm?
    ensures SoundAct(UpdateMachine(s, b, a, path))
  {
    DeleteSound(s, b, path);
    CreateSound(s, a, path);
    TwoSound(DeletePlan(s, b, path), CreatePlan(s, a, path));
    TwoSound(Act(UpdateVm(path, a.params, s.fixed)),
             ActIf(a.force || s.envStale || b.runlist != a.runlist, ProvisionVm(path, a.runlist)));
  }

  lemma {:induction false} UpdateSound(s: Settings, b: Deployment, a: Deployment, path: Path)
    requires WellNamed(b) && WellNamed(a) && SameKind(b, a)
    ensures SoundAct(UpdatePlan(s, b, a, path))
    decreases a, 0, 0
  {
    match (b, a) {
      case (Vm(_, _, _, _, _, _, _), Vm(_, _, _, _, _, _, _)) =>
        UpdateVmSound(s, b, a, path);
      case (Environment(_, _), Environment(_, attributes)) =>
        TwoSound(Act(DeleteEnvironment(path)), Act(CreateEnvironment(path, attributes)));
      case (External(_), External(_)) =>
      case (Composite(_, bService, olds), Composite(_, aService, news)) =>
        var u := UpdateAllNamed(s, olds, news, path);
        var c := CreateNewNamed(s, olds, news, path);
        var d := DeleteOldNamed(s, olds, news, path);
        var updates := UpdateAll(s, olds, news, path);
        var creates := NonNull(CreateNew(s, olds, news, path));
        var deletes := NonNull(DeleteOld(s, olds, news, path));
        LevelSound(updates, creates, deletes, path, u, c, d);
        UpdateHookSound(s, bService, aService, path);
        CompositeSound(LevelActions(updates, creates, deletes), AfterUpdated(s, bService, aService, path));
    }
  }

  // ------------------------------------------------------------------------
  // When an update reaches the new deployment
  // ------------------------------------------------------------------------

  /**
    The condition under which an update reaches what each part of the new deployment says of itself: a
    machine that is kept has the same fixed parameters and, behind a firewall, the same rules in both; a
    kept chef environment is the same in both; a service keeps its gateway.
  */
  predicate OwnReachable(s: Settings, b: Deployment, a: Deployment, path: Path)
    decreases a, 0
  {
    match (b, a)
    case (Vm(_, was, bRules, _, _, _, _), Vm(_, params, aRules, _, _, _, _)) =>
      Recreated(s, b, a, path) || (SameFixed(was, params, s.fixed) && (s.firewalled ==> bRules == aRules))
    case (Environment(_, bAttributes), Environment(_, aAttributes)) => s.envStale || bAttributes == aAttributes
    case (Composite(_, bService, olds), Composite(_, aService, news)) =>
      && (bService.Some? && aService.Some? ==> bService.value.gateway == aService.value.gateway)
      && forall c | c in news :: OwnReachableAs(s, olds, c, path)
    case _ => true
  }

  predicate OwnReachableAs(s: Settings, olds: seq<Deployment>, c: Deployment, path: Path)
    decreases c, 1
  {
    var b := ChildByName(olds, c.name);
    b.Some? ==> OwnReachable(s, b.value, c, path + [c.name])
  }

  predicate SameFixed(was: map<string, string>, params: map<string, string>, fixed: set<string>) {
    forall k | k in fixed :: (k in was <==> k in params) && (k in was && k in params ==> was[k] == params[k])
  }

  lemma {:induction false} SameFixedReconfigured(was: map<string, string>, params: map<string, string>, fixed: set<string>)
    ensures Reconfigured(was, params, fixed) == params <==> SameFixed(was, params, fixed)
  {
    var m := Reconfigured(was, params, fixed);
    if SameFixed(was, params, fixed) {
      assert forall k :: k in m <==> k in params;
    } else {
      var k :| k in fixed && !((k in was <==> k in params) && (k in was && k in params ==> was[k] == params[k]));
      assert k in m <==> k in was;
    }
  }

  /** Where the condition holds, an update leaves every resource as the new deployment says. */
  lemma {:induction false} ReachableLeft(s: Settings, b: Deployment, a: Deployment, path: Path, r: PlainResource)
    requires WellNamed(a) && SameKind(b, a) && OwnReachable(s, b, a, path)
    ensures Left(s, b, a, path, r) == At(s, a, path, r)
    decreases a, 0, 0
  {
    match (b, a) {
      case (Vm(_, was, _, _, _, _, _), Vm(_, params, _, _, _, _, _)) =>
        SameFixedReconfigured(was, params, s.fixed);
      case (Environment(_, _), Environment(_, _)) =>
      case (External(_), External(_)) =>
      case (Composite(_, _, olds), Composite(_, _, news)) =>
        ReachableLeftAll(s, olds, news, path, r);
    }
  }

  lemma {:induction false} ReachableLeftAll(s: Settings, olds: seq<Deployment>, news: seq<Deployment>, path: Path, r: PlainResource)
    requires forall c :: c in news ==> WellNamed(c) && SameKindAs(olds, c) && OwnReachableAs(s, olds, c, path)
    ensures LeftAll(s, olds, news, path, r) == AtAll(s, news, path, r)
    decreases news, 1, |news|
  {
    if news != [] {
      var b := ChildByName(olds, news[0].name);
      assert SameKindAs(olds, news[0]) && OwnReachableAs(s, olds, news[0], path);
      if b.Some? {
        ReachableLeft(s, b.value, news[0], path + [news[0].name], r);
      }
      ReachableLeftAll(s, olds, news[1..], path, r);
    }
  }

  /** Where it does not hold, some resource is left otherwise. */
  lemma {:induction false} UnreachableLeft(s: Settings, b: Deployment, a: Deployment, path: Path) returns (r: PlainResource)
    requires WellNamed(a) && SameKind(b, a) && !OwnReachable(s, b, a, path)
    ensures path <= r.path && Left(s, b, a, path, r) != At(s, a, path, r)
    decreases a, 0
  {
    match (b, a) {
      case (Vm(_, was, _, _, _, _, _), Vm(_, params, _, _, _, _, _)) =>
        SameFixedReconfigured(was, params, s.fixed);
        r := if SameFixed(was, params, s.fixed) then Resource(path, Firewall) else Resource(path, Machine);
      case (Environment(_, _), Environment(_, _)) =>
        r := Resource(path, ChefEnvironment);
      case (Composite(_, bService, olds), Composite(_, aService, news)) =>
        if bService.Some? && bService.value.gateway != aService.value.gateway {
          r := Resource(path, Proxy(aService.value.gateway));
        } else {
          r := UnreachableLeftBelow(s, olds, news, path);
        }
    }
  }

  lemma {:induction false} UnreachableLeftBelow(s: Settings, olds: seq<Deployment>, news: seq<Deployment>, path: Path) returns (r: PlainResource)
    requires DistinctNames(news) && forall c :: c in news ==> WellNamed(c) && SameKindAs(olds, c)
    requires exists c :: c in news && !OwnReachableAs(s, olds, c, path)
    ensures path < r.path && LeftAll(s, olds, news, path, r) != AtAll(s, news, path, r)
    decreases news, 1
  {
    var c :| c in news && !OwnReachableAs(s, olds, c, path);
    var was := ChildByName(olds, c.name);
    assert SameKindAs(olds, c);
    r := UnreachableLeft(s, was.value, c, path + [c.name]);
    LeftChild(s, olds, news, path, r, c.name);
    AtChild(s, news, path, r, c.name);
    OnlyChild(news, c);
    assert path < path + [c.name] <= r.path;
  }

  lemma {:induction false} OnlyChild(ds: seq<Deployment>, c: Deployment)
    requires DistinctNames(ds) && c in ds
    ensures ChildByName(ds, c.name) == Some(c)
    decreases |ds|
  {
    if ds[0] != c {
      RestDistinct(ds);
      OnlyChild(ds[1..], c);
    }
  }
}
