/**
  Configuration lookup in the tree of deployment objects: through paths, references,
  defaults and extended configurations.
*/
module DeploymentConfig {
  import opened ActionGraph
  import opened DeploymentPaths

  /** A value, null, or the NullPointerException of going up from a top. */
  datatype Looked<T> = Got(value: T) | Nothing | Broken

  /** `getExtendedConfig`: an object does not extend itself. */
  function ExtendedConfig(f: Forest, n: Id): (r: Found)
    requires Consistent(f) && n < |f|
    ensures r.There? ==> r.id < |f| && r.id != n
  {
    if f[n].ext.None? then Null
    else
      var r := GetByPath(f, n, f[n].ext.value);
      if r == There(n) then Null else r
  }

  /** Every object has a larger rank than the one it extends. */
  ghost predicate ExtensionsRanked(f: Forest, rank: seq<nat>) {
    && Consistent(f) && |rank| == |f|
    && forall n :: 0 <= n < |f| ==> ExtensionSmaller(f, rank, n)
  }

  ghost predicate ExtensionSmaller(f: Forest, rank: seq<nat>, n: Id)
    requires Consistent(f) && |rank| == |f| && n < |f|
  {
    ExtendedConfig(f, n).There? ==> rank[ExtendedConfig(f, n).id] < rank[n]
  }

  /** What the object itself says: its own value, or else the default of its field. */
  function Own(f: Forest, n: Id, name: string): Option<ConstraintValue>
    requires n < |f|
  {
    if name in f[n].values then Some(f[n].values[name])
    else if name in f[n].defaults then Some(Literal(f[n].defaults[name]))
    else None
  }

  /** `getValue` */
  function GetValue(f: Forest, rank: seq<nat>, n: Id, name: string): Looked<ConstraintValue>
    requires ExtensionsRanked(f, rank) && n < |f|
    decreases rank[n]
  {
    assert ExtensionSmaller(f, rank, n);
    if Own(f, n, name).Some? then Got(Own(f, n, name).value)
    else
      match ExtendedConfig(f, n)
      case There(m) => GetValue(f, rank, m, name)
      case Null => Nothing
      case Crash => Broken
  }

  /** Constraint names have no slash. */
  predicate PlainNames(f: Forest) {
    forall n | 0 <= n < |f| :: forall name | name in f[n].values.Keys + f[n].defaults.Keys :: '/' !in name
  }

  lemma {:induction false} ValueNamesPlain(f: Forest, rank: seq<nat>, n: Id, name: string)
    requires ExtensionsRanked(f, rank) && PlainNames(f) && n < |f| && GetValue(f, rank, n, name).Got?
    ensures '/' !in name
    decreases rank[n]
  {
    assert ExtensionSmaller(f, rank, n);
    if Own(f, n, name).None? {
      ValueNamesPlain(f, rank, ExtendedConfig(f, n).id, name);
    } else {
      assert name in f[n].values.Keys + f[n].defaults.Keys;
    }
  }

  /** A constraint of an object. */
  datatype Key = Key(id: Id, name: string)

  /** The constraint that a name with a path in front leads to. */
  function Landing(f: Forest, n: Id, name: string): (r: Option<Key>)
    requires Consistent(f) && n < |f|
    ensures r.Some? ==> r.value.id < |f| && '/' !in r.value.name
    decreases |name|
  {
    assert ObjectOk(f, n);
    if UP <= name then
      if f[n].parent.None? then None else Landing(f, f[n].parent.value, name[|UP|..])
    else if "/" <= name then
      Landing(f, Top(f, n), name[1..])
    else if '/' !in name then
      Some(Key(n, name))
    else
      var d := ChildFor(f, f[n].children, name);
      if d.Some? then Landing(f, d.value, name[|f[d.value].name| + 1..]) else None
  }

  /** The object where the lookup of a reference starts, and the name it looks up there. */
  function Start(f: Forest, n: Id, reference: string): (r: Key)
    requires Consistent(f) && n < |f|
    ensures r.id < |f|
  {
    if "/" <= reference then Key(Top(f, n), reference[1..]) else Key(n, reference)
  }

  type Ranking = (Id, string) -> nat

  function Rank(f: Forest, order: Ranking, n: Id, name: string): nat
    requires Consistent(f) && n < |f|
  {
    var k := Landing(f, n, name);
    if k.None? then 0 else order(k.value.id, k.value.name) + 1
  }

  /** References and extended configurations do not run in circles: they lead to smaller ranks. */
  ghost predicate Ranked(f: Forest, rank: seq<nat>, order: Ranking) {
    && ExtensionsRanked(f, rank) && PlainNames(f)
    && forall n: Id, name: string :: n < |f| ==> ReferenceSmaller(f, rank, order, n, name)
  }

  ghost predicate ReferenceSmaller(f: Forest, rank: seq<nat>, order: Ranking, n: Id, name: string)
    requires ExtensionsRanked(f, rank) && n < |f|
  {
    var v := GetValue(f, rank, n, name);
    v.Got? && v.value.Reference? ==>
      var start := Start(f, n, v.value.path);
      Rank(f, order, start.id, start.name) <= order(n, name)
  }

  /** `getConfigValue` */
  function GetConfigValue(f: Forest, rank: seq<nat>, order: Ranking, n: Id, name: string): Looked<string>
    requires Ranked(f, rank, order) && n < |f|
    decreases Rank(f, order, n, name), |name|
  {
    assert ObjectOk(f, n);
    if UP <= name then
      if f[n].parent.None? then Broken else GetConfigValue(f, rank, order, f[n].parent.value, name[|UP|..])
    else if "/" <= name then
      GetConfigValue(f, rank, order, Top(f, n), name[1..])
    else
      match GetValue(f, rank, n, name)
      case Got(Literal(text)) => Got(text)
      case Got(Reference(path)) =>
        ValueNamesPlain(f, rank, n, name);
        assert ReferenceSmaller(f, rank, order, n, name);
        var start := Start(f, n, path);
        GetConfigValue(f, rank, order, start.id, start.name)
      case Broken => Broken
      case Nothing =>
        var d := ChildFor(f, f[n].children, name);
        if d.None? then Nothing
        else
          assert name[|f[d.value].name|] == '/';
          GetConfigValue(f, rank, order, d.value, name[|f[d.value].name| + 1..])
  }

  // ------------------------------------------------------------------------
  // Values
  // ------------------------------------------------------------------------

  /**
    A value that an object has wins over the default of its field, and the default over what the extended
    configuration says; that is asked only for a name with neither, and where it is not the object itself.
  */
  lemma {:induction false} ValueRules(f: Forest, rank: seq<nat>, n: Id, name: string)
    requires ExtensionsRanked(f, rank) && n < |f|
    ensures name in f[n].values ==> GetValue(f, rank, n, name) == Got(f[n].values[name])
    ensures name !in f[n].values && name in f[n].defaults ==> GetValue(f, rank, n, name) == Got(Literal(f[n].defaults[name]))
    ensures name !in f[n].values && name !in f[n].defaults ==>
              GetValue(f, rank, n, name) ==
              if f[n].ext.None? then Nothing
              else
                match GetByPath(f, n, f[n].ext.value)
                case There(m) => if m == n then Nothing else GetValue(f, rank, m, name)
                case Null => Nothing
                case Crash => Broken
  {
    hide GetByPath;
    assert ExtensionSmaller(f, rank, n);
  }

  /** Objects of which each finds the next, another one, at the path of its extended configuration. */
  ghost predicate Extends(f: Forest, chain: seq<Id>) {
    && Consistent(f)
    && (forall i :: 0 <= i < |chain| ==> chain[i] < |f|)
    && forall i :: 0 <= i < |chain| - 1 ==>
         && f[chain[i]].ext.Some? && chain[i + 1] != chain[i]
         && GetByPath(f, chain[i], f[chain[i]].ext.value) == There(chain[i + 1])
  }

  /** A value is that of the first object, along the extended configurations, that has one or a default for it. */
  lemma {:induction false} ValueIsFirst(f: Forest, rank: seq<nat>, n: Id, name: string) returns (chain: seq<Id>)
    requires ExtensionsRanked(f, rank) && n < |f|
    ensures Extends(f, chain) && chain != [] && chain[0] == n
    ensures forall i :: 0 <= i < |chain| - 1 ==> name !in f[chain[i]].values && name !in f[chain[i]].defaults
    ensures var last := chain[|chain| - 1];
            GetValue(f, rank, n, name) ==
            if name in f[last].values then Got(f[last].values[name])
            else if name in f[last].defaults then Got(Literal(f[last].defaults[name]))
            else if f[last].ext.Some? && GetByPath(f, last, f[last].ext.value) == Crash then Broken
            else Nothing
    ensures var last := chain[|chain| - 1];
            name in f[last].values || name in f[last].defaults || f[last].ext.None?
            || GetByPath(f, last, f[last].ext.value) in {There(last), Null, Crash}
    decreases rank[n]
  {
    hide GetByPath;
    assert ExtensionSmaller(f, rank, n);
    chain := [n];
    if Own(f, n, name).None? && ExtendedConfig(f, n).There? {
      var rest := ValueIsFirst(f, rank, ExtendedConfig(f, n).id, name);
      chain := [n] + rest;
      assert forall i :: 0 < i < |chain| ==> chain[i] == rest[i - 1];
    }
  }

  /** Following the extended configurations from an object goes up from a top in the end. */
  predicate Dangles(f: Forest, rank: seq<nat>, n: Id)
    requires ExtensionsRanked(f, rank) && n < |f|
    decreases rank[n]
  {
    assert ExtensionSmaller(f, rank, n);
    match ExtendedConfig(f, n)
    case There(m) => Dangles(f, rank, m)
    case Null => false
    case Crash => true
  }

  /** No object has a value for a path, so asking for one goes through all extended configurations. */
  lemma {:induction false} PathValue(f: Forest, rank: seq<nat>, n: Id, path: string)
    requires ExtensionsRanked(f, rank) && PlainNames(f) && n < |f| && '/' in path
    ensures GetValue(f, rank, n, path) == if Dangles(f, rank, n) then Broken else Nothing
    decreases rank[n]
  {
    assert ExtensionSmaller(f, rank, n);
    if Own(f, n, path).Some? {
      ValueNamesPlain(f, rank, n, path);
      assert false;
    } else if ExtendedConfig(f, n).There? {
      PathValue(f, rank, ExtendedConfig(f, n).id, path);
    }
  }

  /** Some object that a path goes down from has extended configurations that dangle. */
  predicate Trips(f: Forest, rank: seq<nat>, n: Id, path: string)
    requires ExtensionsRanked(f, rank) && n < |f|
    decreases |path|
  {
    assert ObjectOk(f, n);
    if UP <= path then
      f[n].parent.Some? && Trips(f, rank, f[n].parent.value, path[|UP|..])
    else if "/" <= path then
      Trips(f, rank, Top(f, n), path[1..])
    else if '/' !in path then
      false
    else
      Dangles(f, rank, n) ||
      var d := ChildFor(f, f[n].children, path);
      d.Some? && Trips(f, rank, d.value, path[|f[d.value].name| + 1..])
  }

  // ------------------------------------------------------------------------
  // Config lookup refines path lookup
  // ------------------------------------------------------------------------

  /** A path of whole segments. */
  predicate Segments(path: string) {
    path == "" || path[|path| - 1] == '/'
  }

  lemma {:induction false} SegmentsPrefix(m: string, path: string, name: string)
    requires path != "" && Segments(path) && '/' !in m
    ensures m + "/" <= path + name <==> m + "/" <= path
  {
    var p, q := m + "/", path + name;
    assert forall i :: 0 <= i < |path| ==> q[i] == path[i];
    assert forall i :: 0 <= i < |m| ==> p[i] == m[i] && m[i] in m;
    assert q[|path| - 1] == '/';
  }

  lemma {:induction false} ChildForSegments(f: Forest, n: Id, cs: seq<Id>, path: string, name: string)
    requires Consistent(f) && n < |f| && (forall c :: c in cs ==> c in f[n].children && c < |f|)
    requires path != "" && Segments(path)
    ensures ChildFor(f, cs, path + name) == ChildFor(f, cs, path)
    decreases |cs|
  {
    if cs != [] {
      assert cs[0] in cs && forall c :: c in cs[1..] ==> c in cs;
      assert ObjectOk(f, n) && ObjectOk(f, cs[0]);
      SegmentsPrefix(f[cs[0]].name, path, name);
      ChildForSegments(f, n, cs[1..], path, name);
    }
  }

  lemma {:induction false} SegmentsUp(path: string, name: string)
    requires path != "" && Segments(path)
    ensures UP <= path + name <==> UP <= path
    ensures "/" <= path + name <==> "/" <= path
  {
    SegmentsPrefix("..", path, name);
    assert ".." + "/" == UP;
    SegmentsPrefix("", path, name);
    assert "" + "/" == "/";
  }

  lemma {:induction false} SegmentsDrop(path: string, name: string, k: nat)
    requires path != "" && Segments(path) && k <= |path|
    ensures (path + name)[k..] == path[k..] + name && Segments(path[k..])
  {
  }

  /**
    Looking a name up through a path is finding the object at the path and looking the name up there,
    unless the path trips on the way: at every object it goes down from, a value for the rest of the path
    is looked for first, in the extended configurations too.
  */
  lemma {:induction false} ConfigRefinesPaths(f: Forest, rank: seq<nat>, order: Ranking, n: Id, path: string, name: string)
    requires Ranked(f, rank, order) && n < |f| && Segments(path) && '/' !in name
    ensures GetConfigValue(f, rank, order, n, path + name) ==
      if Trips(f, rank, n, path) then Broken else
      match GetByPath(f, n, path) {
        case There(m) => GetConfigValue(f, rank, order, m, name)
        case Null => Nothing
        case Crash => Broken
      }
    decreases |path|, 1
  {
    assert ObjectOk(f, n);
    if path == "" {
      assert path + name == name;
    } else {
      SegmentsUp(path, name);
      if UP <= path {
        SegmentsDrop(path, name, |UP|);
        if f[n].parent.Some? {
          ConfigRefinesPaths(f, rank, order, f[n].parent.value, path[|UP|..], name);
        }
      } else if "/" <= path {
        SegmentsDrop(path, name, 1);
        ConfigRefinesPaths(f, rank, order, Top(f, n), path[1..], name);
      } else {
        ConfigRefinesChild(f, rank, order, n, path, name);
      }
    }
  }

  lemma {:induction false} ConfigRefinesChild(f: Forest, rank: seq<nat>, order: Ranking, n: Id, path: string, name: string)
    requires Ranked(f, rank, order) && n < |f| && Segments(path) && '/' !in name
    requires path != "" && !(UP <= path) && !("/" <= path)
    ensures GetConfigValue(f, rank, order, n, path + name) ==
      if Trips(f, rank, n, path) then Broken else
      match GetByPath(f, n, path) {
        case There(m) => GetConfigValue(f, rank, order, m, name)
        case Null => Nothing
        case Crash => Broken
      }
    decreases |path|, 0
  {
    hide GetConfigValue, GetByPath, Trips, ReferenceSmaller, PlainNames;
    SegmentsSlash(path, name);
    SegmentsUp(path, name);
    PathLookup(f, rank, order, n, path + name);
    PathWay(f, rank, n, path);
    ChildForSegments(f, n, f[n].children, path, name);
    var d := ChildFor(f, f[n].children, path);
    if d.Some? {
      var k := |f[d.value].name| + 1;
      SegmentsDrop(path, name, k);
      ConfigRefinesPaths(f, rank, order, d.value, path[k..], name);
    }
  }

  lemma {:induction false} SegmentsSlash(path: string, name: string)
    requires path != "" && Segments(path)
    ensures '/' in path && '/' in path + name
  {
    assert (path + name)[|path| - 1] == '/' && path[|path| - 1] == '/';
  }

  /** Looking a path up that goes down from the object. */
  lemma {:induction false} PathLookup(f: Forest, rank: seq<nat>, order: Ranking, n: Id, q: string)
    requires Ranked(f, rank, order) && n < |f| && '/' in q && !(UP <= q) && !("/" <= q)
    ensures ObjectOk(f, n)
    ensures var d := ChildFor(f, f[n].children, q);
            GetConfigValue(f, rank, order, n, q) ==
            if Dangles(f, rank, n) then Broken
            else if d.None? then Nothing
            else GetConfigValue(f, rank, order, d.value, q[|f[d.value].name| + 1..])
  {
    hide Rank, Landing, Dangles, Own;
    assert ObjectOk(f, n);
    PathValue(f, rank, n, q);
  }

  /** Following such a path, and where it trips. */
  lemma {:induction false} PathWay(f: Forest, rank: seq<nat>, n: Id, q: string)
    requires ExtensionsRanked(f, rank) && n < |f| && '/' in q && !(UP <= q) && !("/" <= q)
    ensures ObjectOk(f, n)
    ensures var d := ChildFor(f, f[n].children, q);
            && GetByPath(f, n, q) == (if d.None? then Null else GetByPath(f, d.value, q[|f[d.value].name| + 1..]))
            && Trips(f, rank, n, q) == (Dangles(f, rank, n) || (d.Some? && Trips(f, rank, d.value, q[|f[d.value].name| + 1..])))
  {
    hide Dangles;
    assert ObjectOk(f, n);
  }

  // ------------------------------------------------------------------------
  // Chains of references
  // ------------------------------------------------------------------------

  /** Looking a name up is looking up the constraint that it leads to, if it leads to one. */
  lemma {:induction false} ConfigLands(f: Forest, rank: seq<nat>, order: Ranking, n: Id, name: string)
    requires Ranked(f, rank, order) && n < |f|
    ensures var k := Landing(f, n, name);
            if Trips(f, rank, n, name) then GetConfigValue(f, rank, order, n, name) == Broken
            else if k.None? then !GetConfigValue(f, rank, order, n, name).Got?
            else GetConfigValue(f, rank, order, n, name) == GetConfigValue(f, rank, order, k.value.id, k.value.name)
    decreases |name|
  {
    hide Rank, PlainNames, Own;
    assert ObjectOk(f, n);
    if UP <= name {
      if f[n].parent.Some? {
        ConfigLands(f, rank, order, f[n].parent.value, name[|UP|..]);
      }
    } else if "/" <= name {
      ConfigLands(f, rank, order, Top(f, n), name[1..]);
    } else if '/' in name {
      PathValue(f, rank, n, name);
      var d := ChildFor(f, f[n].children, name);
      if d.Some? {
        ConfigLands(f, rank, order, d.value, name[|f[d.value].name| + 1..]);
      }
    }
  }

  /** A reference is looked up at the object itself, or at its top if it starts with a slash; a literal is its text. */
  lemma {:induction false} ReferencesFollow(f: Forest, rank: seq<nat>, order: Ranking, n: Id, name: string)
    requires Ranked(f, rank, order) && n < |f| && '/' !in name && GetValue(f, rank, n, name).Got?
    ensures GetConfigValue(f, rank, order, n, name) ==
      match GetValue(f, rank, n, name).value {
        case Literal(text) => Got(text)
        case Reference(path) =>
          if "/" <= path then GetConfigValue(f, rank, order, Top(f, n), path[1..]) else GetConfigValue(f, rank, order, n, path)
      }
  {
    PlainNameIsLocal(f, rank, order, n, name);
  }

  /** The value of the first constraint is a reference that leads to the second without tripping. */
  ghost predicate Leads(f: Forest, rank: seq<nat>, from: Key, to: Key)
    requires ExtensionsRanked(f, rank) && from.id < |f|
  {
    var v := GetValue(f, rank, from.id, from.name);
    && v.Got? && v.value.Reference?
    && var start := Start(f, from.id, v.value.path);
       !Trips(f, rank, start.id, start.name) && Landing(f, start.id, start.name) == Some(to)
  }

  ghost predicate Chain(f: Forest, rank: seq<nat>, keys: seq<Key>)
    requires ExtensionsRanked(f, rank)
  {
    && (forall i :: 0 <= i < |keys| ==> keys[i].id < |f|)
    && forall i :: 0 <= i < |keys| - 1 ==> Leads(f, rank, keys[i], keys[i + 1])
  }

  lemma {:induction false} PlainNameIsLocal(f: Forest, rank: seq<nat>, order: Ranking, n: Id, name: string)
    requires Ranked(f, rank, order) && n < |f| && '/' !in name
    ensures !(UP <= name) && !("/" <= name)
    ensures ObjectOk(f, n) && ChildFor(f, f[n].children, name).None?
  {
    assert ObjectOk(f, n);
    assert UP[2] == '/' && "/"[0] == '/';
    forall c | c in f[n].children ensures !(f[c].name + "/" <= name) {
      assert (f[c].name + "/")[|f[c].name|] == '/';
    }
  }

  /**
    A configuration value is what the chain of references ends with: a literal, or no value where the last
    constraint has none or a reference that leads nowhere, and the exception where looking it up trips.
  */
  lemma {:induction false} ConfigFollowsChain(f: Forest, rank: seq<nat>, order: Ranking, n: Id, name: string)
    returns (keys: seq<Key>)
    requires Ranked(f, rank, order) && n < |f| && '/' !in name
    ensures Chain(f, rank, keys) && keys != [] && keys[0] == Key(n, name)
    ensures var last := keys[|keys| - 1];
            match GetValue(f, rank, last.id, last.name) {
              case Got(Literal(text)) => GetConfigValue(f, rank, order, n, name) == Got(text)
              case Got(Reference(path)) =>
                var start := Start(f, last.id, path);
                if Trips(f, rank, start.id, start.name) then GetConfigValue(f, rank, order, n, name) == Broken
                else Landing(f, start.id, start.name).None? && !GetConfigValue(f, rank, order, n, name).Got?
              case Nothing => GetConfigValue(f, rank, order, n, name) == Nothing
              case Broken => GetConfigValue(f, rank, order, n, name) == Broken
            }
    decreases order(n, name)
  {
    hide Rank, PlainNames, Own, GetValue, Trips, Landing;
    PlainNameIsLocal(f, rank, order, n, name);
    keys := [Key(n, name)];
    var v := GetValue(f, rank, n, name);
    if v.Got? && v.value.Reference? {
      var start := Start(f, n, v.value.path);
      ConfigLands(f, rank, order, start.id, start.name);
      var next := Landing(f, start.id, start.name);
      if next.Some? && !Trips(f, rank, start.id, start.name) {
        RankDrops(f, rank, order, n, name, next.value);
        var rest := ConfigFollowsChain(f, rank, order, next.value.id, next.value.name);
        assert Leads(f, rank, keys[0], rest[0]);
        keys := keys + rest;
        assert keys[|keys| - 1] == rest[|rest| - 1];
        forall i | 0 <= i < |keys| - 1 ensures Leads(f, rank, keys[i], keys[i + 1]) {
          if i > 0 {
            assert Leads(f, rank, rest[i - 1], rest[i]);
          }
        }
      }
    }
  }

  lemma {:induction false} RankDrops(f: Forest, rank: seq<nat>, order: Ranking, n: Id, name: string, next: Key)
    requires Ranked(f, rank, order) && n < |f| && next.id < |f| && Leads(f, rank, Key(n, name), next)
    ensures order(next.id, next.name) < order(n, name)
  {
    assert ReferenceSmaller(f, rank, order, n, name);
  }
}
