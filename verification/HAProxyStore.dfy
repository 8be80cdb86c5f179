/**
  How a load balancer's configuration is written to the key store and taken out of it again.
  A key is a path of segments on one server; `update` deletes what the old service wrote and
  writes what the new one needs.
*/
module HAProxyStore {
  import opened ActionGraph

  type Path = seq<string>

  /** Where a gateway keeps its configuration: the server's address and a path prefix. */
  datatype Gateway = Gateway(address: string, prefix: Path)

  datatype Key = Key(address: string, path: Path)

  /** A list of options (stored as a JSON array), or a server's line. */
  datatype Value = Options(lines: seq<string>) | Server(line: string)

  datatype Mode = Http | Tcp

  datatype Backend = Backend(mode: Mode, sticky: bool, config: seq<string>, serverOptions: Option<string>)

  datatype Vm = Vm(name: string, ip: string, ports: seq<string>)

  datatype Group = Group(name: string, backend: Backend, vms: seq<Vm>)

  /** `frontend` is what `generateHAProxyFrontendConfig` returns. */
  datatype Service = Service(name: string, gateway: Gateway, frontend: seq<string>,
                             ip: string, port: string, groups: seq<Group>)

  function ModeName(m: Mode): string {
    match m case Http => "http" case Tcp => "tcp"
  }

  /** `generateHAProxyServerOptions`, for a group whose options are given */
  function ServerOptions(server: string, b: Backend): string
    requires b.serverOptions.Some?
  {
    b.serverOptions.value + if b.sticky && b.mode == Http then " cookie " + server else ""
  }

  /** `generateHAProxyBackendConfig` */
  function BackendConfig(name: string, b: Backend): seq<string> {
    ["mode " + ModeName(b.mode)]
    + (if b.sticky && b.mode == Http then ["cookie " + name + "-SRVID insert indirect nocache"] else [])
    + b.config
  }

  function FrontendConfig(s: Service): seq<string> {
    s.frontend + ["bind " + s.ip + ":" + s.port]
  }

  // ------------------------------------------------------------------------
  // What is written, and what is deleted
  // ------------------------------------------------------------------------

  function KeyPath(g: Gateway, kind: string, names: Path): Key {
    Key(g.address, g.prefix + [kind] + names)
  }

  datatype Write = Write(key: Key, value: Value)

  function Apply(keys: map<Key, Value>, writes: seq<Write>): map<Key, Value>
    decreases |writes|
  {
    if writes == [] then keys else Apply(keys[writes[0].key := writes[0].value], writes[1..])
  }

  /** Saving a server fails when it has no endpoint or its group no options. */
  predicate CanSave(g: Group, vm: Vm) {
    vm.ports != [] && g.backend.serverOptions.Some?
  }

  predicate Complete(g: Group) {
    forall vm :: vm in g.vms ==> CanSave(g, vm)
  }

  function ServerLine(g: Group, vm: Vm): string
    requires CanSave(g, vm)
  {
    var options := ServerOptions(vm.name, g.backend);
    vm.ip + ":" + vm.ports[0] + if options == "" then "" else " " + options
  }

  function ServerWrite(at: Gateway, g: Group, vm: Vm): Write
    requires CanSave(g, vm)
  {
    Write(KeyPath(at, "server", [g.name, vm.name]), Server(ServerLine(g, vm)))
  }

  /** The servers of a group up to the first that cannot be saved. */
  function ServerWrites(at: Gateway, g: Group, vms: seq<Vm>): seq<Write> {
    if vms == [] || !CanSave(g, vms[0]) then [] else [ServerWrite(at, g, vms[0])] + ServerWrites(at, g, vms[1..])
  }

  function BackendWrite(at: Gateway, g: Group): Write {
    Write(KeyPath(at, "backend", [g.name, "options"]), Options(BackendConfig(g.name, g.backend)))
  }

  function GroupWrites(at: Gateway, groups: seq<Group>): seq<Write> {
    if groups == [] then []
    else
      [BackendWrite(at, groups[0])] + ServerWrites(at, groups[0], groups[0].vms)
      + if Complete(groups[0]) then GroupWrites(at, groups[1..]) else []
  }

  function FrontendWrite(at: Gateway, s: Service): Write {
    Write(KeyPath(at, "frontend", [s.name, "options"]), Options(FrontendConfig(s)))
  }

  /** What configuring a service writes, in order. */
  function Writes(at: Gateway, s: Service): seq<Write> {
    [FrontendWrite(at, s)] + GroupWrites(at, s.groups)
  }

  /** The configuration of a service on its own. */
  function ConfigOf(at: Gateway, s: Service): map<Key, Value> {
    Apply(map[], Writes(at, s))
  }

  predicate Within(dir: Key, k: Key) {
    dir.address == k.address && dir.path <= k.path
  }

  predicate Deleted(dirs: seq<Key>, k: Key) {
    exists i :: 0 <= i < |dirs| && Within(dirs[i], k)
  }

  function Without(keys: map<Key, Value>, dirs: seq<Key>): map<Key, Value> {
    map k | k in keys && !Deleted(dirs, k) :: keys[k]
  }

  function ServerDirs(at: Gateway, g: Group, vms: seq<Vm>): (r: seq<Key>)
    ensures |r| == |vms| && forall i :: 0 <= i < |r| ==> r[i] == KeyPath(at, "server", [g.name, vms[i].name])
  {
    seq(|vms|, i requires 0 <= i < |vms| => KeyPath(at, "server", [g.name, vms[i].name]))
  }

  function GroupDirs(at: Gateway, groups: seq<Group>): seq<Key> {
    if groups == [] then []
    else [KeyPath(at, "backend", [groups[0].name])] + ServerDirs(at, groups[0], groups[0].vms) + GroupDirs(at, groups[1..])
  }

  /** What deleting the configuration of a service removes, recursively. */
  function Dirs(at: Gateway, s: Service): seq<Key> {
    [KeyPath(at, "frontend", [s.name])] + GroupDirs(at, s.groups)
  }

  // ------------------------------------------------------------------------
  // Laws of writing and deleting
  // ------------------------------------------------------------------------

  lemma {:induction false} ApplyJoin(keys: map<Key, Value>, a: seq<Write>, b: seq<Write>)
    ensures Apply(keys, a + b) == Apply(Apply(keys, a), b)
    decreases |a|
  {
    if a == [] {
      assert a + b == b;
    } else {
      assert (a + b)[0] == a[0] && (a + b)[1..] == a[1..] + b;
      ApplyJoin(keys[a[0].key := a[0].value], a[1..], b);
    }
  }

  /** Writing into a store is adding what is written on its own. */
  lemma {:induction false} ApplyAdds(keys: map<Key, Value>, writes: seq<Write>)
    ensures Apply(keys, writes) == keys + Apply(map[], writes)
    decreases |writes|
  {
    if writes != [] {
      var w := writes[0];
      ApplyAdds(keys[w.key := w.value], writes[1..]);
      ApplyAdds(map[w.key := w.value], writes[1..]);
      var rest := Apply(map[], writes[1..]);
      assert map[][w.key := w.value] == map[w.key := w.value];
      assert keys[w.key := w.value] + rest == keys + (map[w.key := w.value] + rest);
    } else {
      assert keys + map[] == keys;
    }
  }

  lemma {:induction false} ApplyKeys(writes: seq<Write>, k: Key)
    ensures k in Apply(map[], writes) <==> exists i :: 0 <= i < |writes| && writes[i].key == k
    decreases |writes|
  {
    if writes != [] {
      var w := writes[0];
      ApplyAdds(map[w.key := w.value], writes[1..]);
      assert map[][w.key := w.value] == map[w.key := w.value];
      ApplyKeys(writes[1..], k);
      if k in Apply(map[], writes[1..]) {
        var i :| 0 <= i < |writes[1..]| && writes[1..][i].key == k;
        assert writes[i + 1].key == k;
      }
      if i :| 0 <= i < |writes| && writes[i].key == k {
        if i > 0 {
          assert writes[1..][i - 1].key == k;
        }
      }
    }
  }

  lemma {:induction false} WithoutJoin(keys: map<Key, Value>, a: seq<Key>, b: seq<Key>)
    ensures Without(keys, a + b) == Without(Without(keys, a), b)
  {
    forall k ensures Deleted(a + b, k) <==> Deleted(a, k) || Deleted(b, k) {
      if Deleted(a, k) {
        var i :| 0 <= i < |a| && Within(a[i], k);
        assert Within((a + b)[i], k);
      }
      if Deleted(b, k) {
        var i :| 0 <= i < |b| && Within(b[i], k);
        assert Within((a + b)[|a| + i], k);
      }
    }
  }

  // ------------------------------------------------------------------------
  // Keys of a configuration
  // ------------------------------------------------------------------------

  /** Every key of a configuration lies three segments below the gateway's prefix. */
  predicate KeyOf(at: Gateway, k: Key) {
    && k.address == at.address && |k.path| == |at.prefix| + 3 && at.prefix <= k.path
  }

  lemma {:induction false} ServerWritesAre(at: Gateway, g: Group, vms: seq<Vm>, i: nat)
    requires i < |ServerWrites(at, g, vms)|
    ensures i < |vms| && CanSave(g, vms[i]) && ServerWrites(at, g, vms)[i] == ServerWrite(at, g, vms[i])
    decreases i
  {
    if i > 0 {
      ServerWritesAre(at, g, vms[1..], i - 1);
    }
  }

  lemma {:induction false} DeletedIn(dirs: seq<Key>, all: seq<Key>, k: Key)
    requires Deleted(dirs, k) && forall d :: d in dirs ==> d in all
    ensures Deleted(all, k)
  {
    var i :| 0 <= i < |dirs| && Within(dirs[i], k);
    assert dirs[i] in all;
    var j :| 0 <= j < |all| && all[j] == dirs[i];
    assert Within(all[j], k);
  }

  lemma {:induction false} PathWithin(at: Gateway, kind: string, name: string, last: string)
    ensures Within(KeyPath(at, kind, [name]), KeyPath(at, kind, [name, last]))
    ensures KeyOf(at, KeyPath(at, kind, [name, last]))
  {
    var short, long := at.prefix + [kind] + [name], at.prefix + [kind] + [name, last];
    assert long == short + [last];
    assert long[..|at.prefix|] == at.prefix;
  }

  /** Deleting a group's configuration covers all that writing it wrote. */
  lemma {:induction false} GroupsCovered(at: Gateway, groups: seq<Group>, i: nat)
    requires i < |GroupWrites(at, groups)|
    ensures Deleted(GroupDirs(at, groups), GroupWrites(at, groups)[i].key) && KeyOf(at, GroupWrites(at, groups)[i].key)
    decreases |groups|
  {
    var g := groups[0];
    var own, dirs := ServerWrites(at, g, g.vms), ServerDirs(at, g, g.vms);
    var all := GroupDirs(at, groups);
    var k := GroupWrites(at, groups)[i].key;
    assert all[0] == KeyPath(at, "backend", [g.name]) && forall j :: 1 <= j <= |dirs| ==> all[j] == dirs[j - 1];
    if i == 0 {
      PathWithin(at, "backend", g.name, "options");
      assert Within(all[0], k);
    } else if i <= |own| {
      assert k == own[i - 1].key;
      hide GroupWrites, GroupDirs;
      ServerWritesAre(at, g, g.vms, i - 1);
      PathWithin(at, "server", g.name, g.vms[i - 1].name);
      assert all[i] == dirs[i - 1] == k;
      assert Within(all[i], k);
    } else {
      assert k == GroupWrites(at, groups[1..])[i - 1 - |own|].key;
      assert all == [all[0]] + dirs + GroupDirs(at, groups[1..]);
      hide GroupWrites, GroupDirs, Deleted;
      GroupsCovered(at, groups[1..], i - 1 - |own|);
      DeletedIn(GroupDirs(at, groups[1..]), all, k);
    }
  }

  /** Whatever configuring a service writes, deleting its configuration removes. */
  lemma {:induction false} ConfigCovered(at: Gateway, s: Service, k: Key)
    requires k in ConfigOf(at, s)
    ensures Deleted(Dirs(at, s), k) && KeyOf(at, k)
  {
    ApplyKeys(Writes(at, s), k);
    var i :| 0 <= i < |Writes(at, s)| && Writes(at, s)[i].key == k;
    if i == 0 {
      PathWithin(at, "frontend", s.name, "options");
      assert Within(Dirs(at, s)[0], k);
    } else {
      GroupsCovered(at, s.groups, i - 1);
      DeletedIn(GroupDirs(at, s.groups), Dirs(at, s), k);
    }
  }

  predicate IsServer(at: Gateway, g: Group, k: Key) {
    exists vm :: vm in g.vms && k == KeyPath(at, "server", [g.name, vm.name])
  }

  predicate IsGroup(at: Gateway, g: Group, k: Key) {
    k == KeyPath(at, "backend", [g.name, "options"]) || IsServer(at, g, k)
  }

  ghost predicate Wrote(writes: seq<Write>, k: Key) {
    exists i :: 0 <= i < |writes| && writes[i].key == k
  }

  lemma {:induction false} WroteJoin(a: seq<Write>, b: seq<Write>, k: Key)
    ensures Wrote(a + b, k) <==> Wrote(a, k) || Wrote(b, k)
  {
    if i :| 0 <= i < |a| && a[i].key == k {
      assert (a + b)[i].key == k;
    }
    if i :| 0 <= i < |b| && b[i].key == k {
      assert (a + b)[|a| + i].key == k;
    }
  }

  lemma {:induction false} AllServers(at: Gateway, g: Group, vms: seq<Vm>)
    requires forall vm :: vm in vms ==> CanSave(g, vm)
    ensures |ServerWrites(at, g, vms)| == |vms|
    decreases |vms|
  {
    if vms != [] {
      AllServers(at, g, vms[1..]);
    }
  }

  lemma {:induction false} ServersWrote(at: Gateway, g: Group, k: Key)
    requires Complete(g)
    ensures Wrote(ServerWrites(at, g, g.vms), k) <==> IsServer(at, g, k)
  {
    AllServers(at, g, g.vms);
    forall i | 0 <= i < |g.vms| ensures ServerWrites(at, g, g.vms)[i].key == KeyPath(at, "server", [g.name, g.vms[i].name]) {
      ServerWritesAre(at, g, g.vms, i);
    }
    if vm :| vm in g.vms && k == KeyPath(at, "server", [g.name, vm.name]) {
      var i :| 0 <= i < |g.vms| && g.vms[i] == vm;
      assert ServerWrites(at, g, g.vms)[i].key == k;
    }
  }

  lemma {:induction false} GroupsWrote(at: Gateway, groups: seq<Group>, k: Key)
    requires forall g :: g in groups ==> Complete(g)
    ensures Wrote(GroupWrites(at, groups), k) <==> exists g :: g in groups && IsGroup(at, g, k)
    decreases |groups|
  {
    hide IsServer, Complete, KeyPath, BackendConfig;
    if groups != [] {
      var g, rest := groups[0], groups[1..];
      var first, own := [BackendWrite(at, g)], ServerWrites(at, g, g.vms);
      assert g in groups && forall h :: h in groups <==> h == g || h in rest;
      GroupsWrote(at, rest, k);
      ServersWrote(at, g, k);
      WroteJoin(first + own, GroupWrites(at, rest), k);
      WroteJoin(first, own, k);
      assert Wrote(first, k) <==> first[0].key == k;
    }
  }

  /** A service that can be configured has these keys, and no others: one for each service, group and server. */
  lemma {:induction false} ConfigKeys(at: Gateway, s: Service, k: Key)
    requires forall g :: g in s.groups ==> Complete(g)
    ensures k in ConfigOf(at, s) <==>
            k == KeyPath(at, "frontend", [s.name, "options"]) || exists g :: g in s.groups && IsGroup(at, g, k)
  {
    hide IsGroup, Complete, KeyPath;
    ApplyKeys(Writes(at, s), k);
    var first := [FrontendWrite(at, s)];
    assert k in ConfigOf(at, s) <==> Wrote(first + GroupWrites(at, s.groups), k);
    WroteJoin(first, GroupWrites(at, s.groups), k);
    GroupsWrote(at, s.groups, k);
    assert Wrote(first, k) <==> first[0].key == k;
  }

  // ------------------------------------------------------------------------
  // Contents of a configuration
  // ------------------------------------------------------------------------

  /** A key to which just one value is written holds that value. */
  lemma {:induction false} ApplyValue(keys: map<Key, Value>, writes: seq<Write>, k: Key, v: Value)
    requires forall i :: 0 <= i < |writes| && writes[i].key == k ==> writes[i].value == v
    requires Wrote(writes, k) || (k in keys && keys[k] == v)
    ensures k in Apply(keys, writes) && Apply(keys, writes)[k] == v
    decreases |writes|
  {
    if writes != [] {
      var w, rest := writes[0], writes[1..];
      assert forall i :: 0 <= i < |rest| ==> rest[i] == writes[i + 1];
      if w.key != k && Wrote(writes, k) {
        var i :| 0 <= i < |writes| && writes[i].key == k;
        assert rest[i - 1].key == k;
      }
      ApplyValue(keys[w.key := w.value], rest, k, v);
    }
  }

  /** Every write but the first is that of a group or of one of its servers. */
  lemma {:induction false} GroupWriteIs(at: Gateway, groups: seq<Group>, i: nat) returns (g: Group, vm: Option<Vm>)
    requires i < |GroupWrites(at, groups)|
    ensures g in groups
    ensures match vm case None => GroupWrites(at, groups)[i] == BackendWrite(at, g)
                     case Some(m) => m in g.vms && CanSave(g, m) && GroupWrites(at, groups)[i] == ServerWrite(at, g, m)
    decreases |groups|
  {
    hide BackendConfig, KeyPath, ServerLine;
    g := groups[0];
    var own := ServerWrites(at, g, g.vms);
    if i == 0 {
      vm := None;
    } else if i <= |own| {
      ServerWritesAre(at, g, g.vms, i - 1);
      vm := Some(g.vms[i - 1]);
      assert GroupWrites(at, groups)[i] == own[i - 1];
    } else {
      assert GroupWrites(at, groups)[i] == GroupWrites(at, groups[1..])[i - 1 - |own|];
      hide GroupWrites, ServerWrites, Complete, CanSave;
      g, vm := GroupWriteIs(at, groups[1..], i - 1 - |own|);
    }
  }

  /** Groups have different names, and so have the servers of each. */
  ghost predicate NamesDiffer(s: Service) {
    && (forall g, h :: g in s.groups && h in s.groups && g.name == h.name ==> g == h)
    && forall g, m, n :: g in s.groups && m in g.vms && n in g.vms && m.name == n.name ==> m == n
  }

  lemma {:induction false} KeysDiffer(at: Gateway, kind: string, names: Path, kind': string, names': Path)
    ensures KeyPath(at, kind, names) == KeyPath(at, kind', names') ==> kind == kind' && names == names'
  {
    var p, q := at.prefix + [kind] + names, at.prefix + [kind'] + names';
    if p == q {
      assert p[|at.prefix|] == kind && q[|at.prefix|] == kind';
      assert p[|at.prefix| + 1..] == names && q[|at.prefix| + 1..] == names';
    }
  }

  /** Of the writes of a service, those to one key all have one value. */
  lemma {:induction false} OneValue(at: Gateway, s: Service, w: Write)
    requires NamesDiffer(s) && w in Writes(at, s)
    ensures forall i :: 0 <= i < |Writes(at, s)| && Writes(at, s)[i].key == w.key ==> Writes(at, s)[i].value == w.value
  {
    hide BackendConfig, KeyPath, ServerLine, FrontendConfig, GroupWrites;
    forall i | 0 <= i < |Writes(at, s)| && Writes(at, s)[i].key == w.key ensures Writes(at, s)[i].value == w.value {
      var j :| 0 <= j < |Writes(at, s)| && Writes(at, s)[j] == w;
      SameValue(at, s, i, j);
    }
  }

  lemma {:induction false} SameValue(at: Gateway, s: Service, i: nat, j: nat)
    requires NamesDiffer(s) && i < |Writes(at, s)| && j < |Writes(at, s)| && Writes(at, s)[i].key == Writes(at, s)[j].key
    ensures Writes(at, s)[i].value == Writes(at, s)[j].value
  {
    hide BackendConfig, KeyPath, ServerLine, FrontendConfig, GroupWrites;
    var a, m := WriteIs(at, s, i);
    var b, n := WriteIs(at, s, j);
    KeysDiffer(at, "frontend", [s.name, "options"], "backend", [b.name, "options"]);
    KeysDiffer(at, "frontend", [s.name, "options"], "backend", [a.name, "options"]);
    KeysDiffer(at, "backend", [a.name, "options"], "backend", [b.name, "options"]);
    if m.Some? {
      KeysDiffer(at, "server", [a.name, m.value.name], "frontend", [s.name, "options"]);
      KeysDiffer(at, "server", [a.name, m.value.name], "backend", [b.name, "options"]);
    }
    if n.Some? {
      KeysDiffer(at, "server", [b.name, n.value.name], "frontend", [s.name, "options"]);
      KeysDiffer(at, "server", [b.name, n.value.name], "backend", [a.name, "options"]);
    }
    if m.Some? && n.Some? {
      KeysDiffer(at, "server", [a.name, m.value.name], "server", [b.name, n.value.name]);
      var x, y := [a.name, m.value.name], [b.name, n.value.name];
      assert x == y ==> x[0] == y[0] && x[1] == y[1];
    }
    assert [a.name, "options"] == [b.name, "options"] ==> [a.name, "options"][0] == [b.name, "options"][0];
  }

  lemma {:induction false} WriteIs(at: Gateway, s: Service, i: nat) returns (g: Group, vm: Option<Vm>)
    requires i < |Writes(at, s)|
    ensures i == 0 ==> Writes(at, s)[0] == FrontendWrite(at, s) && vm == None
    ensures i > 0 ==> g in s.groups
    ensures i > 0 && vm.None? ==> Writes(at, s)[i] == BackendWrite(at, g)
    ensures i > 0 && vm.Some? ==> vm.value in g.vms && CanSave(g, vm.value) && Writes(at, s)[i] == ServerWrite(at, g, vm.value)
  {
    hide BackendConfig, KeyPath, ServerLine, FrontendConfig;
    if i == 0 {
      g, vm := Group("", Backend(Http, false, [], None), []), None;
    } else {
      g, vm := GroupWriteIs(at, s.groups, i - 1);
    }
  }

  lemma {:induction false} WriteHolds(at: Gateway, s: Service, w: Write)
    requires NamesDiffer(s) && w in Writes(at, s)
    ensures w.key in ConfigOf(at, s) && ConfigOf(at, s)[w.key] == w.value
  {
    OneValue(at, s, w);
    var i :| 0 <= i < |Writes(at, s)| && Writes(at, s)[i] == w;
    ApplyValue(map[], Writes(at, s), w.key, w.value);
  }

  lemma {:induction false} GroupIsWritten(at: Gateway, groups: seq<Group>, g: Group)
    requires (forall h :: h in groups ==> Complete(h)) && g in groups
    ensures BackendWrite(at, g) in GroupWrites(at, groups)
    ensures forall vm :: vm in g.vms ==> CanSave(g, vm) && ServerWrite(at, g, vm) in GroupWrites(at, groups)
    decreases |groups|
  {
    hide BackendConfig, KeyPath, ServerLine;
    var h := groups[0];
    var own, rest := ServerWrites(at, h, h.vms), GroupWrites(at, groups[1..]);
    var all := GroupWrites(at, groups);
    assert all == [BackendWrite(at, h)] + own + rest;
    if h == g {
      AllServers(at, g, g.vms);
      forall vm | vm in g.vms ensures CanSave(g, vm) && ServerWrite(at, g, vm) in all {
        var i :| 0 <= i < |g.vms| && g.vms[i] == vm;
        ServerWritesAre(at, g, g.vms, i);
        assert own[i] == ServerWrite(at, g, vm) && all[i + 1] == own[i];
      }
      assert all[0] == BackendWrite(at, g);
    } else {
      assert g in groups[1..];
      GroupIsWritten(at, groups[1..], g);
    }
  }

  /** The service listens where it is bound, besides what its frontend says. */
  lemma {:induction false} StoredFrontend(at: Gateway, s: Service)
    requires NamesDiffer(s)
    ensures var k := Key(at.address, at.prefix + ["frontend"] + [s.name, "options"]);
            k in ConfigOf(at, s) && ConfigOf(at, s)[k] == Options(s.frontend + ["bind " + s.ip + ":" + s.port])
  {
    assert Writes(at, s)[0] == FrontendWrite(at, s);
    WriteHolds(at, s, FrontendWrite(at, s));
  }

  /**
    A group's backend has its mode, for sticky servers over HTTP the cookie that it hands out, and what its
    configuration says; each server is at its address and first port, with the options of the group, and is
    chosen by its name's cookie exactly if the backend hands one out.
  */
  lemma {:induction false} StoredGroup(at: Gateway, s: Service, g: Group)
    requires NamesDiffer(s) && (forall h :: h in s.groups ==> Complete(h)) && g in s.groups
    ensures var k := Key(at.address, at.prefix + ["backend"] + [g.name, "options"]);
            var cookie := if g.backend.sticky && g.backend.mode == Http then ["cookie " + g.name + "-SRVID insert indirect nocache"] else [];
            && k in ConfigOf(at, s)
            && ConfigOf(at, s)[k] == Options([if g.backend.mode == Http then "mode http" else "mode tcp"] + cookie + g.backend.config)
    ensures forall vm :: vm in g.vms ==>
              var k := Key(at.address, at.prefix + ["server"] + [g.name, vm.name]);
              var chosen := if g.backend.sticky && g.backend.mode == Http then " cookie " + vm.name else "";
              && CanSave(g, vm) && k in ConfigOf(at, s)
              && var options := g.backend.serverOptions.value + chosen;
                 ConfigOf(at, s)[k] == Server(vm.ip + ":" + vm.ports[0] + if options == "" then "" else " " + options)
  {
    hide GroupWrites, ConfigOf;
    var all := Writes(at, s);
    GroupIsWritten(at, s.groups, g);
    assert all == [FrontendWrite(at, s)] + GroupWrites(at, s.groups);
    WriteHolds(at, s, BackendWrite(at, g));
    assert "mode " + "http" == "mode http" && "mode " + "tcp" == "mode tcp";
    forall vm | vm in g.vms
      ensures CanSave(g, vm) && ServerWrite(at, g, vm).key in ConfigOf(at, s)
              && ConfigOf(at, s)[ServerWrite(at, g, vm).key] == Server(ServerLine(g, vm))
    {
      WriteHolds(at, s, ServerWrite(at, g, vm));
    }
  }

  // ------------------------------------------------------------------------
  // Reconfiguration
  // ------------------------------------------------------------------------

  /** What an update leaves in a store when it works on the gateway `at`. */
  function Reconfigured(keys: map<Key, Value>, at: Gateway, before: Service, after: Service): map<Key, Value> {
    Apply(Without(keys, Dirs(at, before)), Writes(at, after))
  }

  /** Keys that deleting the configuration of the service would not touch. */
  ghost predicate Unrelated(others: map<Key, Value>, at: Gateway, s: Service) {
    forall k :: k in others ==> !Deleted(Dirs(at, s), k)
  }

  /** What was written is deleted again, and nothing else. */
  lemma {:induction false} DeleteUndoesConfigure(others: map<Key, Value>, at: Gateway, s: Service)
    requires Unrelated(others, at, s)
    ensures Without(Apply(others, Writes(at, s)), Dirs(at, s)) == others
  {
    ApplyAdds(others, Writes(at, s));
    var all, r := others + ConfigOf(at, s), Without(others + ConfigOf(at, s), Dirs(at, s));
    forall k | k in all ensures k in r <==> k in others {
      if k in ConfigOf(at, s) {
        ConfigCovered(at, s, k);
      }
    }
    forall k | k in r ensures r[k] == others[k] {
      if k in ConfigOf(at, s) {
        ConfigCovered(at, s, k);
      }
    }
    assert r.Keys == others.Keys;
  }

  /** No stale keys: an update on the gateway of both leaves the new configuration and what is unrelated. */
  lemma {:induction false} NoStaleKeys(others: map<Key, Value>, at: Gateway, before: Service, after: Service)
    requires Unrelated(others, at, before)
    ensures Reconfigured(others + ConfigOf(at, before), at, before, after) == others + ConfigOf(at, after)
  {
    ApplyAdds(others, Writes(at, before));
    DeleteUndoesConfigure(others, at, before);
    ApplyAdds(others, Writes(at, after));
  }

  /** Gateways whose prefixes do not lie inside each other. */
  predicate Separate(g: Gateway, h: Gateway) {
    g == h || g.address != h.address || !(g.prefix <= h.prefix || h.prefix <= g.prefix)
  }

  lemma {:induction false} PrefixesOfOne(a: Path, b: Path, c: Path)
    requires a <= c && b <= c
    ensures a <= b || b <= a
  {
    if |a| <= |b| {
      assert a == c[..|a|] == b[..|a|];
    } else {
      assert b == c[..|b|] == a[..|b|];
    }
  }

  lemma {:induction false} HasFrontend(at: Gateway, s: Service)
    ensures FrontendWrite(at, s).key in ConfigOf(at, s)
  {
    ApplyKeys(Writes(at, s), FrontendWrite(at, s).key);
    assert Writes(at, s)[0].key == FrontendWrite(at, s).key;
  }

  /** A key lies three segments below the prefix of one of two separate gateways at most. */
  lemma {:induction false} OneGateway(g: Gateway, h: Gateway, k: Key)
    requires Separate(g, h) && KeyOf(g, k) && KeyOf(h, k)
    ensures g == h
  {
    PrefixesOfOne(g.prefix, h.prefix, k.path);
  }

  /**
    A deployer writes to the gateway it first looked up, that of `before`. So an update ends with
    the new configuration where it belongs exactly if the gateway did not change.
  */
  lemma {:induction false} UpdateLandsIff(others: map<Key, Value>, before: Service, after: Service)
    requires Unrelated(others, before.gateway, before) && Separate(before.gateway, after.gateway)
    requires FrontendWrite(before.gateway, after).key !in others
    ensures before.gateway == after.gateway <==>
            Reconfigured(others + ConfigOf(before.gateway, before), before.gateway, before, after)
            == others + ConfigOf(after.gateway, after)
  {
    var g, h := before.gateway, after.gateway;
    NoStaleKeys(others, g, before, after);
    if g != h {
      var k := FrontendWrite(g, after).key;
      HasFrontend(g, after);
      ConfigCovered(g, after, k);
      if k in ConfigOf(h, after) {
        ConfigCovered(h, after, k);
        OneGateway(g, h, k);
      }
      assert k !in others + ConfigOf(h, after);
      assert k in others + ConfigOf(g, after);
    }
  }

  // ------------------------------------------------------------------------
  // The code
  // ------------------------------------------------------------------------

  class HAProxyConfigurator {
    const gateway: Gateway
    const etcd: Etcd

    constructor (gateway: Gateway, etcd: Etcd)
      ensures this.gateway == gateway && this.etcd == etcd
    {
      this.gateway, this.etcd := gateway, etcd;
    }

    method SaveServer(group: string, server: string, ip: string, port: string, options: string)
      modifies etcd
      ensures etcd.keys == old(etcd.keys)[KeyPath(gateway, "server", [group, server])
                                          := Server(ip + ":" + port + if options == "" then "" else " " + options)]
    {
      var optionsText := if options == "" then "" else " " + options;
      etcd.Put(KeyPath(gateway, "server", [group, server]), Server(ip + ":" + port + optionsText));
    }

    method Save(kind: string, name: string, options: seq<string>)
      modifies etcd
      ensures etcd.keys == old(etcd.keys)[KeyPath(gateway, kind, [name, "options"]) := Options(options)]
    {
      etcd.Put(KeyPath(gateway, kind, [name, "options"]), Options(options));
    }

    method Delete(kind: string, names: Path)
      modifies etcd
      ensures etcd.keys == Without(old(etcd.keys), [KeyPath(gateway, kind, names)])
    {
      etcd.DeleteRecursive(KeyPath(gateway, kind, names));
    }
  }

  /** The key store. */
  class Etcd {
    var keys: map<Key, Value>

    constructor ()
      ensures keys == map[]
    {
      keys := map[];
    }

    method Put(k: Key, v: Value)
      modifies this
      ensures keys == old(keys)[k := v]
    {
      keys := keys[k := v];
    }

    /** Removes the key and all below it; that there is none is only logged. */
    method DeleteRecursive(dir: Key)
      modifies this
      ensures keys == Without(old(keys), [dir])
      ensures keys == map k | k in old(keys) && !(k.address == dir.address && dir.path <= k.path) :: old(keys)[k]
    {
      keys := map k | k in keys && !Within(dir, k) :: keys[k];
      assert forall k :: Deleted([dir], k) <==> Within([dir][0], k);
    }
  }

  class HAProxyDeployer {
    const etcd: Etcd
    var configurator: HAProxyConfigurator?

    constructor (etcd: Etcd)
      ensures this.etcd == etcd && configurator == null
    {
      this.etcd, configurator := etcd, null;
    }

    ghost predicate Valid()
      reads this
    {
      configurator != null ==> configurator.etcd == etcd
    }

    /** The gateway that the deployer works on: the first it was asked for. */
    ghost function Where(s: Service): Gateway
      reads this
    {
      if configurator == null then s.gateway else configurator.gateway
    }

    /** `getConfigurator` */
    method GetConfigurator(s: Service) returns (c: HAProxyConfigurator)
      requires Valid()
      modifies this
      ensures Valid() && configurator == c && c.gateway == old(Where(s)) && c.etcd == etcd
    {
      if configurator == null {
        configurator := new HAProxyConfigurator(s.gateway, etcd);
      }
      c := configurator;
    }

    /** The servers of one group; false when an exception ends the whole. */
    method ConfigureServers(c: HAProxyConfigurator, g: Group) returns (ok: bool)
      requires c.etcd == etcd
      modifies etcd
      ensures etcd.keys == Apply(old(etcd.keys), ServerWrites(c.gateway, g, g.vms)) && ok == Complete(g)
    {
      ghost var was := etcd.keys;
      for i := 0 to |g.vms|
        invariant forall j :: 0 <= j < i ==> CanSave(g, g.vms[j])
        invariant Apply(etcd.keys, ServerWrites(c.gateway, g, g.vms[i..])) == Apply(was, ServerWrites(c.gateway, g, g.vms))
      {
        var vm := g.vms[i];
        assert g.vms[i..][0] == vm && g.vms[i..][1..] == g.vms[i + 1..];
        if vm.ports == [] || g.backend.serverOptions.None? {
          assert vm in g.vms && !CanSave(g, vm);
          return false;
        }
        c.SaveServer(g.name, vm.name, vm.ip, vm.ports[0], ServerOptions(vm.name, g.backend));
        assert ServerWrites(c.gateway, g, g.vms[i..]) == [ServerWrite(c.gateway, g, vm)] + ServerWrites(c.gateway, g, g.vms[i + 1..]);
      }
      ok := true;
    }

    /** `configure` */
    method Configure(s: Service) returns (ok: bool)
      requires Valid()
      modifies this, etcd
      ensures Valid() && configurator != null && configurator.gateway == old(Where(s))
      ensures etcd.keys == Apply(old(etcd.keys), Writes(old(Where(s)), s))
      ensures ok == forall g :: g in s.groups ==> Complete(g)
    {
      hide *;
      ghost var was := etcd.keys;
      var c := GetConfigurator(s);
      ghost var at := c.gateway;
      c.Save("frontend", s.name, FrontendConfig(s));
      WritesStep(was, at, s);
      assert s.groups[0..] == s.groups;
      for i := 0 to |s.groups|
        invariant Valid() && configurator == c
        invariant forall j :: 0 <= j < i ==> Complete(s.groups[j])
        invariant Apply(etcd.keys, GroupWrites(at, s.groups[i..])) == Apply(was, Writes(at, s))
      {
        var g := s.groups[i];
        assert s.groups[i..][0] == g && s.groups[i..][1..] == s.groups[i + 1..];
        ghost var now := etcd.keys;
        c.Save("backend", g.name, BackendConfig(g.name, g.backend));
        var saved := ConfigureServers(c, g);
        GroupStep(now, at, s.groups[i..]);
        if !saved {
          assert g in s.groups;
          return false;
        }
      }
      NothingLeft(etcd.keys, at, s.groups[|s.groups|..]);
      ok := true;
    }

    /** `deleteConfiguration` */
    method DeleteConfiguration(s: Service)
      requires Valid()
      modifies this, etcd
      ensures Valid() && configurator != null && configurator.gateway == old(Where(s))
      ensures etcd.keys == Without(old(etcd.keys), Dirs(old(Where(s)), s))
    {
      hide *;
      ghost var was := etcd.keys;
      var c := GetConfigurator(s);
      ghost var at := c.gateway;
      c.Delete("frontend", [s.name]);
      DirsStep(was, at, s);
      assert s.groups[0..] == s.groups;
      for i := 0 to |s.groups|
        invariant Valid() && configurator == c
        invariant Without(etcd.keys, GroupDirs(at, s.groups[i..])) == Without(was, Dirs(at, s))
      {
        var g := s.groups[i];
        assert s.groups[i..][0] == g && s.groups[i..][1..] == s.groups[i + 1..];
        ghost var now := etcd.keys;
        c.Delete("backend", [g.name]);
        DeleteServers(c, g);
        GroupDirsStep(now, at, s.groups[i..]);
      }
      NoneLeft(etcd.keys, at, s.groups[|s.groups|..]);
    }

    /** The servers of one group. */
    method DeleteServers(c: HAProxyConfigurator, g: Group)
      requires c.etcd == etcd
      modifies etcd
      ensures etcd.keys == Without(old(etcd.keys), ServerDirs(c.gateway, g, g.vms))
    {
      hide *;
      ghost var was := etcd.keys;
      ghost var dirs := ServerDirs(c.gateway, g, g.vms);
      WithoutNone(was, dirs[..0]);
      for i := 0 to |g.vms|
        invariant etcd.keys == Without(was, dirs[..i])
      {
        c.Delete("server", [g.name, g.vms[i].name]);
        WithoutJoin(was, dirs[..i], [dirs[i]]);
        assert dirs[..i + 1] == dirs[..i] + [dirs[i]];
      }
      assert dirs[..|g.vms|] == dirs;
    }

    /**
      The two steps that `getAfterChildrenUpdatedAction` puts in sequence. On an unchanged gateway
      nothing of the old configuration is left, all of the new one is there, and the rest is as it was.
    */
    method Update(before: Service, after: Service) returns (ok: bool)
      requires Valid() && configurator == null
      modifies this, etcd
      ensures ok == forall g :: g in after.groups ==> Complete(g)
      ensures etcd.keys == Reconfigured(old(etcd.keys), before.gateway, before, after)
      ensures forall others | before.gateway == after.gateway && Unrelated(others, before.gateway, before)
                              && old(etcd.keys) == others + ConfigOf(before.gateway, before) ::
                etcd.keys == others + ConfigOf(after.gateway, after)
    {
      hide Dirs, Writes, Apply, Without, Complete, Unrelated, ConfigOf;
      ghost var was := etcd.keys;
      DeleteConfiguration(before);
      ok := Configure(after);
      forall others | before.gateway == after.gateway && Unrelated(others, before.gateway, before)
                      && was == others + ConfigOf(before.gateway, before)
        ensures etcd.keys == others + ConfigOf(after.gateway, after)
      {
        NoStaleKeys(others, before.gateway, before, after);
      }
    }
  }

  lemma {:induction false} WritesStep(keys: map<Key, Value>, at: Gateway, s: Service)
    ensures Apply(keys[KeyPath(at, "frontend", [s.name, "options"]) := Options(FrontendConfig(s))], GroupWrites(at, s.groups))
            == Apply(keys, Writes(at, s))
  {
    assert Writes(at, s)[1..] == GroupWrites(at, s.groups);
  }

  /** One group: its backend, its servers, and the others only if all its servers were saved. */
  lemma {:induction false} ApplyFirst(keys: map<Key, Value>, w: Write, others: seq<Write>)
    ensures Apply(keys, [w] + others) == Apply(keys[w.key := w.value], others)
  {
    assert ([w] + others)[1..] == others;
  }

  lemma {:induction false} GroupWritesAre(at: Gateway, groups: seq<Group>)
    requires groups != []
    ensures var others := if Complete(groups[0]) then GroupWrites(at, groups[1..]) else [];
            GroupWrites(at, groups) == [BackendWrite(at, groups[0])] + (ServerWrites(at, groups[0], groups[0].vms) + others)
  {
    hide ServerWrites, Complete, BackendConfig, KeyPath;
    var others := if Complete(groups[0]) then GroupWrites(at, groups[1..]) else [];
    assert GroupWrites(at, groups) == [BackendWrite(at, groups[0])] + ServerWrites(at, groups[0], groups[0].vms) + others;
  }

  lemma {:induction false} GroupStep(keys: map<Key, Value>, at: Gateway, groups: seq<Group>)
    requires groups != []
    ensures var g := groups[0];
            var saved := Apply(keys[KeyPath(at, "backend", [g.name, "options"]) := Options(BackendConfig(g.name, g.backend))],
                               ServerWrites(at, g, g.vms));
            Apply(keys, GroupWrites(at, groups)) == if Complete(g) then Apply(saved, GroupWrites(at, groups[1..])) else saved
  {
    var g := groups[0];
    var own := ServerWrites(at, g, g.vms);
    var w := BackendWrite(at, g);
    var others := if Complete(g) then GroupWrites(at, groups[1..]) else [];
    GroupWritesAre(at, groups);
    hide GroupWrites, ServerWrites, Apply, Complete, BackendConfig, KeyPath;
    ApplyFirst(keys, w, own + others);
    ApplyJoin(keys[w.key := w.value], own, others);
  }

  lemma {:induction false} NothingLeft(keys: map<Key, Value>, at: Gateway, groups: seq<Group>)
    requires groups == []
    ensures Apply(keys, GroupWrites(at, groups)) == keys
  {
  }

  lemma {:induction false} DirsStep(keys: map<Key, Value>, at: Gateway, s: Service)
    ensures Without(Without(keys, [KeyPath(at, "frontend", [s.name])]), GroupDirs(at, s.groups)) == Without(keys, Dirs(at, s))
  {
    WithoutJoin(keys, [KeyPath(at, "frontend", [s.name])], GroupDirs(at, s.groups));
  }

  lemma {:induction false} GroupDirsStep(keys: map<Key, Value>, at: Gateway, groups: seq<Group>)
    requires groups != []
    ensures Without(Without(Without(keys, [KeyPath(at, "backend", [groups[0].name])]), ServerDirs(at, groups[0], groups[0].vms)),
                    GroupDirs(at, groups[1..]))
            == Without(keys, GroupDirs(at, groups))
  {
    var first, own, others := [KeyPath(at, "backend", [groups[0].name])], ServerDirs(at, groups[0], groups[0].vms), GroupDirs(at, groups[1..]);
    assert GroupDirs(at, groups) == first + own + others;
    WithoutJoin(keys, first + own, others);
    WithoutJoin(keys, first, own);
  }

  lemma {:induction false} WithoutNone(keys: map<Key, Value>, dirs: seq<Key>)
    requires dirs == []
    ensures Without(keys, dirs) == keys
  {
  }

  lemma {:induction false} NoneLeft(keys: map<Key, Value>, at: Gateway, groups: seq<Group>)
    requires groups == []
    ensures Without(keys, GroupDirs(at, groups)) == keys
  {
  }
}
