/**
  The plan compiler: deployment trees become plans that create, delete or update
  what they describe.
*/
module Deployers {
  import opened ActionGraph
  import opened ActionTree
  import opened Resources

  /** A produced service: the gateway that proxies it, its configuration there and its public ports. */
  datatype Service = Service(gateway: string, config: string, ports: string)

  /**
    A deployable, by the kind of its deployer. `Composite` stands for the deployers
    that extend AbstractDeployer: with a service for a produced service behind
    HAProxy, without for applications, gateways and component groups. `External`
    stands for an external service, which has nothing to deploy.
  */
  datatype Deployment =
    | Vm(name: string, params: map<string, string>, rules: string, node: string, supplies: seq<Supply>, runlist: string, force: bool)
    | Environment(name: string, attributes: string)
    | External(name: string)
    | Composite(name: string, service: Option<Service>, children: seq<Deployment>)

  /**
    What the deployers ask other systems: the capabilities of the node API, the gateways
    whose own API has firewalls, the parameters that cannot be configured later, the virtual
    machines with an unsuccessful action in the last attempt, and whether chef's copy of the
    environment differs from the new one.
  */
  datatype Settings = Settings(
    firewalled: bool,
    configureOnCreate: bool,
    firewalledGateways: set<string>,
    fixed: set<string>,
    failed: set<Path>,
    envStale: bool)

  type Action = Option<Plan<Op>>

  function Act(op: Op): Action {
    Some(Single(op))
  }

  function ActIf(c: bool, op: Op): Action {
    if c then Act(op) else None
  }

  // ------------------------------------------------------------------------
  // AbstractDeployer
  // ------------------------------------------------------------------------

  /** `generateCompositeAction`; the list of children's actions may hold null. */
  function GenerateComposite(children: seq<Action>, before: Action, after: Action): Action {
    var multipleChildren := |children| > 1;
    var hasBeforeOrAfter := before.Some? || after.Some?;
    if multipleChildren && hasBeforeOrAfter then
      Some(ActionSequence([before, Some(ActionGroup(children)), after]))
    else if multipleChildren then
      Some(ActionGroup(children))
    else if |children| == 1 || hasBeforeOrAfter then
      Some(ActionSequence([before, if |children| > 0 then children[0] else None, after]))
    else
      None
  }

  function CreatePlan(s: Settings, d: Deployment, path: Path): Action
    decreases d, 0, 0
  {
    match d
    case Vm(_, _, _, _, _, runlist, _) =>
      Some(ActionSequence([CreateMachine(s, d, path), Act(ProvisionVm(path, runlist))]))
    case Environment(_, attributes) => Act(CreateEnvironment(path, attributes))
    case External(_) => None
    case Composite(_, service, children) =>
      GenerateComposite(CreateAll(s, children, path), None, AfterCreated(s, service, path))
  }

  /** One entry for each child, null or not. */
  function CreateAll(s: Settings, ds: seq<Deployment>, path: Path): (r: seq<Action>)
    ensures |r| == |ds|
    decreases ds, 1, |ds|
  {
    if ds == [] then []
    else [CreatePlan(s, ds[0], path + [ds[0].name])] + CreateAll(s, ds[1..], path)
  }

  function DeletePlan(s: Settings, d: Deployment, path: Path): Action
    decreases d, 0, 0
  {
    match d
    case Vm(_, _, _, _, _, _, _) => Some(ActionSequence([Act(DeleteChefNode(path)), Act(DeleteVm(path))]))
    case Environment(_, _) => Act(DeleteEnvironment(path))
    case External(_) => None
    case Composite(_, service, children) =>
      GenerateComposite(DeleteAll(s, children, path), None, AfterDeleted(s, service, path))
  }

  function DeleteAll(s: Settings, ds: seq<Deployment>, path: Path): (r: seq<Action>)
    ensures |r| == |ds|
    decreases ds, 1, |ds|
  {
    if ds == [] then []
    else [DeletePlan(s, ds[0], path + [ds[0].name])] + DeleteAll(s, ds[1..], path)
  }

  function ChildByName(ds: seq<Deployment>, name: string): (r: Option<Deployment>)
    ensures r.Some? ==> r.value in ds && r.value.name == name
    ensures r.None? ==> forall d :: d in ds ==> d.name != name
  {
    if ds == [] then None
    else if ds[0].name == name then Some(ds[0])
    else ChildByName(ds[1..], name)
  }

  /** `getUpdateAction`; the recreation that AbstractDeployer provides for is never asked for. */
  function UpdatePlan(s: Settings, b: Deployment, a: Deployment, path: Path): Action
    decreases a, 0, 0
  {
    match (b, a)
    case (Vm(_, _, _, _, _, _, _), Vm(_, _, _, _, _, _, _)) => UpdateMachine(s, b, a, path)
    case (Environment(_, _), Environment(_, attributes)) =>
      if s.envStale then
        Some(ActionSequence([Act(DeleteEnvironment(path)), Act(CreateEnvironment(path, attributes))]))
      else
        None
    case (Composite(_, bService, olds), Composite(_, aService, news)) =>
      var updates := UpdateAll(s, olds, news, path);
      var creates := NonNull(CreateNew(s, olds, news, path));
      var deletes := NonNull(DeleteOld(s, olds, news, path));
      GenerateComposite(LevelActions(updates, creates, deletes), None, AfterUpdated(s, bService, aService, path))
    case _ => None
  }

  function UpdateAll(s: Settings, olds: seq<Deployment>, news: seq<Deployment>, path: Path): seq<Plan<Op>>
    decreases news, 1, |news|
  {
    if news == [] then []
    else
      var b := ChildByName(olds, news[0].name);
      var update := if b.None? then None else UpdatePlan(s, b.value, news[0], path + [news[0].name]);
      (if update.Some? then [update.value] else []) + UpdateAll(s, olds, news[1..], path)
  }

  function CreateNew(s: Settings, olds: seq<Deployment>, news: seq<Deployment>, path: Path): seq<Action> {
    if news == [] then []
    else
      [if ChildByName(olds, news[0].name).Some? then None else CreatePlan(s, news[0], path + [news[0].name])] +
      CreateNew(s, olds, news[1..], path)
  }

  function DeleteOld(s: Settings, olds: seq<Deployment>, news: seq<Deployment>, path: Path): seq<Action> {
    if olds == [] then []
    else
      [if ChildByName(news, olds[0].name).Some? then None else DeletePlan(s, olds[0], path + [olds[0].name])] +
      DeleteOld(s, olds[1..], news, path)
  }

  function Wrap(plans: seq<Plan<Op>>): (r: seq<Action>)
    ensures |r| == |plans|
  {
    if plans == [] then [] else [Some(plans[0])] + Wrap(plans[1..])
  }

  /** A group, unless there is just one action. */
  function OneOrGroup(plans: seq<Plan<Op>>): Action
    requires plans != []
  {
    if |plans| > 1 then Some(ActionGroup(Wrap(plans))) else Some(plans[0])
  }

  /** The actions of one level: deletions come before creations and updates, if there are both. */
  function LevelActions(updates: seq<Plan<Op>>, creates: seq<Plan<Op>>, deletes: seq<Plan<Op>>): seq<Action> {
    if |deletes| > 0 && (|creates| > 0 || |updates| > 0) then
      [Some(ActionSequence([OneOrGroup(deletes), OneOrGroup(creates + updates)]))]
    else
      Wrap(updates + creates + deletes)
  }

  // ------------------------------------------------------------------------
  // HAProxyDeployer: what follows the children
  // ------------------------------------------------------------------------

  /** The proxy is configured at `proxy`, the public ports are opened at the service's own gateway. */
  function ServiceActions(s: Settings, service: Service, proxy: string, path: Path): Action {
    Some(ActionGroup([Act(ConfigureProxy(path, proxy, service.config)),
                      ActIf(service.gateway in s.firewalledGateways, OpenPorts(path, service.gateway, service.ports))]))
  }

  function AfterCreated(s: Settings, service: Option<Service>, path: Path): Action {
    if service.None? then None else ServiceActions(s, service.value, service.value.gateway, path)
  }

  function AfterDeleted(s: Settings, service: Option<Service>, path: Path): Action {
    if service.None? then None else
    var gateway := service.value.gateway;
    Some(ActionGroup([Act(DeleteProxy(path, gateway)),
                      ActIf(gateway in s.firewalledGateways, ClosePorts(path, gateway))]))
  }

  /** One deployer deletes and configures; its configurator is the one of the gateway it was first used for, the old one. */
  function AfterUpdated(s: Settings, before: Option<Service>, after: Option<Service>, path: Path): Action {
    if after.None? then None else
    var proxy := if before.Some? then before.value.gateway else after.value.gateway;
    Some(ActionSequence([AfterDeleted(s, before, path), ServiceActions(s, after.value, proxy, path)]))
  }

  // ------------------------------------------------------------------------
  // VMDeployer
  // ------------------------------------------------------------------------

  function CreateMachine(s: Settings, d: Deployment, path: Path): Action
    requires d.Vm?
  {
    if !s.firewalled && !s.configureOnCreate then
      Act(CreateVm(path, d.params))
    else
      Some(ActionSequence([
        Act(CreateVm(path, d.params)),
        ActIf(s.configureOnCreate, ConfigureVm(path, d.params, s.fixed)),
        ActIf(s.firewalled, CreateFirewallRules(path, d.rules, d.node, d.supplies))]))
  }

  /** Some parameter that cannot be configured is given on both sides, with different values. */
  predicate RecreateRequired(s: Settings, b: Deployment, a: Deployment)
    requires b.Vm? && a.Vm?
  {
    exists k | k in b.params && k in a.params && b.params[k] != a.params[k] :: k in s.fixed
  }

  predicate Recreated(s: Settings, b: Deployment, a: Deployment, path: Path)
    requires b.Vm? && a.Vm?
  {
    path in s.failed || RecreateRequired(s, b, a)
  }

  function UpdateMachine(s: Settings, b: Deployment, a: Deployment, path: Path): Action
    requires b.Vm? && a.Vm?
  {
    if Recreated(s, b, a, path) then
      Some(ActionSequence([DeletePlan(s, b, path), CreatePlan(s, a, path)]))
    else
      Some(ActionSequence([
        Act(UpdateVm(path, a.params, s.fixed)),
        ActIf(a.force || s.envStale || b.runlist != a.runlist, ProvisionVm(path, a.runlist))]))
  }

  // ------------------------------------------------------------------------
  // What is deployed
  // ------------------------------------------------------------------------

  /** The resource as deployment `d`, found under `path`, describes it; rules for single nodes are described below. */
  function At(s: Settings, d: Deployment, path: Path, r: Resource): Option<Value>
    decreases d, 0, 0
  {
    match d
    case Vm(_, params, rules, _, _, runlist, _) =>
      if r.path != path then None else
      (match r.part
       case Machine => Some(Parameters(params))
       case Firewall => if s.firewalled then Some(Text(rules)) else None
       case ChefNode => Some(Text(runlist))
       case _ => None)
    case Environment(_, attributes) =>
      if r == Resource(path, ChefEnvironment) then Some(Text(attributes)) else None
    case External(_) => None
    case Composite(_, service, children) =>
      if r.path == path then OwnAt(s, service, r.part) else AtAll(s, children, path, r)
  }

  function OwnAt(s: Settings, service: Option<Service>, part: Part): Option<Value> {
    if service.None? then None else
    match part
    case Proxy(gateway) => if gateway == service.value.gateway then Some(Text(service.value.config)) else None
    case PublicPorts(gateway) =>
      if gateway == service.value.gateway && gateway in s.firewalledGateways then Some(Text(service.value.ports)) else None
    case _ => None
  }

  function AtAll(s: Settings, ds: seq<Deployment>, path: Path, r: Resource): Option<Value>
    decreases ds, 1, |ds|
  {
    if ds == [] then None
    else if path + [ds[0].name] <= r.path then At(s, ds[0], path + [ds[0].name], r)
    else AtAll(s, ds[1..], path, r)
  }

  predicate DistinctNames(ds: seq<Deployment>) {
    forall i, j | 0 <= i < j < |ds| :: ds[i].name != ds[j].name
  }

  /** Siblings have different names, all the way down. */
  predicate WellNamed(d: Deployment) {
    d.Composite? ==> DistinctNames(d.children) && forall c | c in d.children :: WellNamed(c)
  }

  /** Children of one name are of one kind, all the way down. */
  predicate SameKind(b: Deployment, a: Deployment)
    decreases a, 0
  {
    match (b, a)
    case (Vm(_, _, _, _, _, _, _), Vm(_, _, _, _, _, _, _)) => true
    case (Environment(_, _), Environment(_, _)) => true
    case (External(_), External(_)) => true
    case (Composite(_, bService, olds), Composite(_, aService, news)) =>
      && bService.Some? == aService.Some?
      && forall c | c in news :: SameKindAs(olds, c)
    case _ => false
  }

  predicate SameKindAs(olds: seq<Deployment>, c: Deployment)
    decreases c, 1
  {
    var b := ChildByName(olds, c.name);
    b.Some? ==> SameKind(b.value, c)
  }
}
