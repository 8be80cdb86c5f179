/**
  What the actions of a deployment do to the outside world, resource by resource.
*/
module Resources {
  import opened ActionGraph

  /**
    What one deployable may own: a machine with the firewall rules it was created with, its chef node, a chef
    environment, a proxy configuration in the store of a gateway, the public ports opened on a gateway, and on a
    machine's firewall the rules that let single nodes in.
  */
  datatype Part =
    | Machine
    | Firewall
    | ChefNode
    | ChefEnvironment
    | Proxy(gateway: string)
    | PublicPorts(gateway: string)
    | Rule(node: string, port: int)

  type Path = seq<string>

  datatype Resource = Resource(path: Path, part: Part)

  /** All resources but the rules for single nodes, which actions of other deployables make. */
  type PlainResource = r: Resource | !r.part.Rule? witness Resource([], Machine)

  datatype Value = Parameters(params: map<string, string>) | Text(text: string) | Allowed

  type World = map<Resource, Value>

  /** An endpoint of another virtual machine of the application, by the name of the machine and its port. */
  datatype Supply = Supply(name: string, port: int)

  /** The single actions, by the description each carries. */
  datatype Op =
    | CreateVm(path: Path, params: map<string, string>)
    | ConfigureVm(path: Path, params: map<string, string>, fixed: set<string>)
    | UpdateVm(path: Path, params: map<string, string>, fixed: set<string>)
    | CreateFirewallRules(path: Path, rules: string, node: string, supplies: seq<Supply>)
    | ProvisionVm(path: Path, runlist: string)
    | DeleteChefNode(path: Path)
    | DeleteVm(path: Path)
    | CreateEnvironment(path: Path, attributes: string)
    | DeleteEnvironment(path: Path)
    | ConfigureProxy(path: Path, gateway: string, config: string)
    | DeleteProxy(path: Path, gateway: string)
    | OpenPorts(path: Path, gateway: string, ports: string)
    | ClosePorts(path: Path, gateway: string)

  /** The rule that lets `node` in on the firewall of the machine that supplies `supply`. */
  function RuleFor(node: string, supply: Supply): Resource {
    Resource([supply.name], Rule(node, supply.port))
  }

  /** The action opens the supplier's firewall for this rule. */
  predicate Allows(op: Op, r: Resource) {
    op.CreateFirewallRules? && exists supply | supply in op.supplies :: r == RuleFor(op.node, supply)
  }

  predicate Touches(op: Op, r: Resource) {
    if r.part.Rule? then
      Allows(op, r) || (op.DeleteVm? && r.path == op.path)
    else
      r.path == op.path &&
      match op
      case CreateVm(_, _) => r.part == Machine
      case ConfigureVm(_, _, _) => r.part == Machine
      case UpdateVm(_, _, _) => r.part == Machine
      case CreateFirewallRules(_, _, _, _) => r.part == Firewall
      case ProvisionVm(_, _) => r.part == ChefNode
      case DeleteChefNode(_) => r.part == ChefNode
      case DeleteVm(_) => r.part == Machine || r.part == Firewall
      case CreateEnvironment(_, _) => r.part == ChefEnvironment
      case DeleteEnvironment(_) => r.part == ChefEnvironment
      case ConfigureProxy(_, gateway, _) => r.part == Proxy(gateway)
      case DeleteProxy(_, gateway) => r.part == Proxy(gateway)
      case OpenPorts(_, gateway, _) => r.part == PublicPorts(gateway)
      case ClosePorts(_, gateway) => r.part == PublicPorts(gateway)
  }

  /** Reconfiguring a machine sets its parameters, but not the ones fixed at its creation. */
  function Reconfigured(was: map<string, string>, params: map<string, string>, fixed: set<string>): map<string, string> {
    (map k | k in was && k in fixed :: was[k]) + (map k | k in params && k !in fixed :: params[k])
  }

  /** What a successful action leaves of a resource. */
  function Effect(op: Op, r: Resource, v: Option<Value>): Option<Value> {
    if !Touches(op, r) then v else
    match op
    case CreateVm(_, params) => Some(Parameters(params))
    case ConfigureVm(_, params, fixed) => Configured(v, params, fixed)
    case UpdateVm(_, params, fixed) => Configured(v, params, fixed)
    case CreateFirewallRules(_, rules, _, _) => if r.part.Rule? then Some(Allowed) else Some(Text(rules))
    case ProvisionVm(_, runlist) => Some(Text(runlist))
    case CreateEnvironment(_, attributes) => Some(Text(attributes))
    case ConfigureProxy(_, _, config) => Some(Text(config))
    case OpenPorts(_, _, ports) => Some(Text(ports))
    case _ => None
  }

  function Configured(v: Option<Value>, params: map<string, string>, fixed: set<string>): Option<Value> {
    match v
    case Some(Parameters(was)) => Some(Parameters(Reconfigured(was, params, fixed)))
    case _ => v
  }

  function Get(w: World, r: Resource): Option<Value> {
    if r in w then Some(w[r]) else None
  }

  /** The resources an action may make; it may also remove some of those that there are. */
  function Made(op: Op): (s: set<Resource>)
    ensures forall r :: Touches(op, r) && !op.DeleteVm? ==> r in s
  {
    if op.CreateFirewallRules? then
      {Resource(op.path, Firewall)} + set supply | supply in op.supplies :: RuleFor(op.node, supply)
    else if op.ConfigureProxy? || op.DeleteProxy? then {Resource(op.path, Proxy(op.gateway))}
    else if op.OpenPorts? || op.ClosePorts? then {Resource(op.path, PublicPorts(op.gateway))}
    else set part | part in {Machine, Firewall, ChefNode, ChefEnvironment} :: Resource(op.path, part)
  }

  /** The world after one action. */
  function Apply(op: Op, w: World): (w': World)
    ensures forall r :: Get(w', r) == Effect(op, r, Get(w, r))
  {
    map r | r in w.Keys + Made(op) && Effect(op, r, Get(w, r)).Some? :: Effect(op, r, Get(w, r)).value
  }

  function Perform(ops: seq<Op>, w: World): World {
    if ops == [] then w else Perform(ops[1..], Apply(ops[0], w))
  }

  /** What a list of actions leaves of one resource. */
  function Trail(ops: seq<Op>, r: Resource, v: Option<Value>): Option<Value> {
    if ops == [] then v else Trail(ops[1..], r, Effect(ops[0], r, v))
  }

  /** The world can be followed one resource at a time. */
  lemma {:induction false} PerformTrail(ops: seq<Op>, w: World, r: Resource)
    ensures Get(Perform(ops, w), r) == Trail(ops, r, Get(w, r))
    decreases |ops|
  {
    if ops != [] {
      PerformTrail(ops[1..], Apply(ops[0], w), r);
    }
  }

  lemma {:induction false} TrailJoin(a: seq<Op>, b: seq<Op>, r: Resource, v: Option<Value>)
    ensures Trail(a + b, r, v) == Trail(b, r, Trail(a, r, v))
    decreases |a|
  {
    if a == [] {
      assert a + b == b;
    } else {
      assert (a + b)[1..] == a[1..] + b;
      TrailJoin(a[1..], b, r, Effect(a[0], r, v));
    }
  }

  predicate Untouched(ops: seq<Op>, r: Resource) {
    forall n | 0 <= n < |ops| :: !Touches(ops[n], r)
  }

  lemma {:induction false} TrailUntouched(ops: seq<Op>, r: Resource, v: Option<Value>)
    requires Untouched(ops, r)
    ensures Trail(ops, r, v) == v
    decreases |ops|
  {
    if ops != [] {
      assert Untouched(ops[1..], r) by {
        forall n | 0 <= n < |ops[1..]| ensures !Touches(ops[1..][n], r) {
          assert ops[1..][n] == ops[n + 1];
        }
      }
      TrailUntouched(ops[1..], r, v);
    }
  }
}
