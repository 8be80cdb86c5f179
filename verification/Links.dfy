/**
  The links of an application deployment: one for each endpoint that its children
  require, kept in step while children come and go.
*/
module Links {
  import opened ActionGraph

  class Link {
    const consumer: string
    var supplier: Option<string>

    constructor (consumer: string)
      ensures this.consumer == consumer && supplier == None
    {
      this.consumer, supplier := consumer, None;
    }
  }

  /** A child: its name, the endpoints it requires and those it offers. */
  datatype Child = Child(name: string, deployable: bool, required: seq<string>, offered: seq<string>)

  /** `getRequiredEndpointsIncludingTemplateName` and `getEndpointsIncludingTemplateName` */
  function Prefixed(name: string, endpoints: seq<string>): (r: seq<string>)
    ensures |r| == |endpoints| && forall i :: 0 <= i < |r| ==> r[i] == name + ":" + endpoints[i]
  {
    seq(|endpoints|, i requires 0 <= i < |endpoints| => name + ":" + endpoints[i])
  }

  function Required(c: Child): seq<string> {
    if c.deployable then Prefixed(c.name, c.required) else []
  }

  /** What all children require, child by child. */
  function Endpoints(children: seq<Child>): seq<string> {
    if children == [] then [] else Required(children[0]) + Endpoints(children[1..])
  }

  function Consumers(links: seq<Link>): (r: seq<string>)
    ensures |r| == |links| && forall i :: 0 <= i < |r| ==> r[i] == links[i].consumer
  {
    seq(|links|, i requires 0 <= i < |links| => links[i].consumer)
  }

  predicate NoRepeats(s: seq<string>) {
    forall i, j | 0 <= i < j < |s| :: s[i] != s[j]
  }

  /** The first link for a consumer. */
  function Find(links: seq<Link>, consumer: string): (r: Option<Link>)
    ensures r.Some? ==> r.value in links && r.value.consumer == consumer
    ensures r.None? ==> consumer !in Consumers(links)
  {
    if links == [] then None
    else if links[0].consumer == consumer then Some(links[0])
    else
      assert Consumers(links) == [links[0].consumer] + Consumers(links[1..]);
      Find(links[1..], consumer)
  }

  function WithoutConsumer(links: seq<Link>, consumer: string): (r: seq<Link>)
    ensures |r| <= |links|
  {
    if links == [] then []
    else (if links[0].consumer == consumer then [] else [links[0]]) + WithoutConsumer(links[1..], consumer)
  }

  /** The links for consumers other than these. */
  function WithoutAll(links: seq<Link>, consumers: seq<string>): (r: seq<Link>)
    ensures |r| <= |links|
  {
    if links == [] then []
    else (if links[0].consumer in consumers then [] else [links[0]]) + WithoutAll(links[1..], consumers)
  }

  /** Each name taken out once, where it stands first. */
  function TakeOut(s: seq<string>, names: seq<string>): seq<string>
    decreases |names|
  {
    if names == [] then s else TakeOut(TakeOutOne(s, names[0]), names[1..])
  }

  function TakeOutOne(s: seq<string>, name: string): seq<string> {
    if s == [] then [] else if s[0] == name then s[1..] else [s[0]] + TakeOutOne(s[1..], name)
  }

  /** The first of the names that are the same goes, and all others stay in their order. */
  lemma {:induction false} TakenOut(before: seq<string>, name: string, after: seq<string>)
    requires name !in before
    ensures TakeOutOne(before + [name] + after, name) == before + after
    ensures TakeOutOne(before, name) == before
    decreases |before|
  {
    var all := before + [name] + after;
    if before == [] {
      assert all[0] == name && all[1..] == after && before + after == after;
    } else {
      var rest := before[1..];
      assert all[0] == before[0] && all[1..] == rest + [name] + after && before[0] in before;
      TakenOut(rest, name, after);
      assert [before[0]] + (rest + after) == before + after;
    }
  }

  function IndexOf(children: seq<Child>, c: Child): (r: Option<nat>)
    ensures r.Some? ==> r.value < |children| && children[r.value] == c && c !in children[..r.value]
    ensures r.None? ==> c !in children
  {
    if children == [] then None
    else if children[0] == c then Some(0)
    else
      assert children == [children[0]] + children[1..];
      var r := IndexOf(children[1..], c);
      assert r.Some? ==> children[..r.value + 1] == [children[0]] + children[1..][..r.value];
      if r.None? then None else Some(r.value + 1)
  }

  // ------------------------------------------------------------------------
  // Endpoints are told apart
  // ------------------------------------------------------------------------

  /** Children with different names without colons, none of which requires an endpoint twice. */
  ghost predicate WellNamed(children: seq<Child>) {
    && (forall i :: 0 <= i < |children| ==> ':' !in children[i].name && NoRepeats(children[i].required))
    && forall i, j :: 0 <= i < j < |children| ==> children[i].name != children[j].name
  }

  lemma {:induction false} FirstColon(m: string, n: string, a: string, b: string)
    requires ':' !in m && ':' !in n && m + ":" + a == n + ":" + b
    ensures m == n && a == b
  {
    var p, q := m + ":" + a, n + ":" + b;
    assert p[|m|] == ':' && q[|n|] == ':';
    assert forall i :: 0 <= i < |m| ==> p[i] == m[i] && m[i] in m;
    assert forall i :: 0 <= i < |n| ==> q[i] == n[i] && n[i] in n;
    assert |m| == |n|;
    assert m == p[..|m|] && n == q[..|n|];
    assert a == p[|m| + 1..] && b == q[|n| + 1..];
  }

  lemma {:induction false} RequiredApart(c: Child)
    requires ':' !in c.name && NoRepeats(c.required)
    ensures NoRepeats(Required(c))
  {
    forall i, j | 0 <= i < j < |Required(c)| ensures Required(c)[i] != Required(c)[j] {
      if Required(c)[i] == Required(c)[j] {
        FirstColon(c.name, c.name, c.required[i], c.required[j]);
      }
    }
  }

  lemma {:induction false} RequiredOfOthers(c: Child, children: seq<Child>)
    requires ':' !in c.name && WellNamed(children) && forall d :: d in children ==> d.name != c.name
    ensures forall e :: e in Required(c) ==> e !in Endpoints(children)
    decreases |children|
  {
    if children != [] {
      var d := children[0];
      assert d in children && forall x :: x in children[1..] ==> x in children;
      RequiredOfOthers(c, children[1..]);
      forall e | e in Required(c) ensures e !in Required(d) {
        if e in Required(d) {
          var i :| 0 <= i < |Required(c)| && Required(c)[i] == e;
          var j :| 0 <= j < |Required(d)| && Required(d)[j] == e;
          FirstColon(c.name, d.name, c.required[i], d.required[j]);
        }
      }
    }
  }

  lemma {:induction false} RestNamed(children: seq<Child>)
    requires WellNamed(children) && children != []
    ensures WellNamed(children[1..]) && ':' !in children[0].name && NoRepeats(children[0].required)
    ensures forall d :: d in children[1..] ==> d.name != children[0].name
  {
    assert forall i :: 0 <= i < |children| - 1 ==> children[1..][i] == children[i + 1];
  }

  /** All the required endpoints are different. */
  lemma {:induction false} EndpointsApart(children: seq<Child>)
    requires WellNamed(children)
    ensures NoRepeats(Endpoints(children))
    decreases |children|
  {
    if children != [] {
      RestNamed(children);
      EndpointsApart(children[1..]);
      RequiredApart(children[0]);
      RequiredOfOthers(children[0], children[1..]);
      NoRepeatsJoin(Required(children[0]), Endpoints(children[1..]));
    }
  }

  lemma {:induction false} NoRepeatsJoin(a: seq<string>, b: seq<string>)
    requires NoRepeats(a) && NoRepeats(b) && forall e :: e in a ==> e !in b
    ensures NoRepeats(a + b)
  {
    forall i, j | 0 <= i < j < |a + b| ensures (a + b)[i] != (a + b)[j] {
      assert i < |a| <= j ==> (a + b)[i] in a && (a + b)[j] in b;
    }
  }

  lemma {:induction false} EndpointsJoin(a: seq<Child>, b: seq<Child>)
    ensures Endpoints(a + b) == Endpoints(a) + Endpoints(b)
    decreases |a|
  {
    if a == [] {
      assert a + b == b;
    } else {
      assert (a + b)[1..] == a[1..] + b;
      EndpointsJoin(a[1..], b);
    }
  }

  // ------------------------------------------------------------------------
  // Lists of links
  // ------------------------------------------------------------------------

  lemma {:induction false} WithoutJoin(a: seq<Link>, b: seq<Link>, consumers: seq<string>)
    ensures WithoutAll(a + b, consumers) == WithoutAll(a, consumers) + WithoutAll(b, consumers)
    decreases |a|
  {
    if a == [] {
      assert a + b == b;
    } else {
      assert (a + b)[1..] == a[1..] + b;
      WithoutJoin(a[1..], b, consumers);
    }
  }

  lemma {:induction false} WithoutOthers(links: seq<Link>, consumers: seq<string>)
    requires forall e :: e in Consumers(links) ==> e !in consumers
    ensures WithoutAll(links, consumers) == links
    decreases |links|
  {
    if links != [] {
      ConsumersRest(links);
      WithoutOthers(links[1..], consumers);
    }
  }

  lemma {:induction false} WithoutThese(links: seq<Link>, consumers: seq<string>)
    requires forall e :: e in Consumers(links) ==> e in consumers
    ensures WithoutAll(links, consumers) == []
    decreases |links|
  {
    if links != [] {
      ConsumersRest(links);
      WithoutThese(links[1..], consumers);
    }
  }

  lemma {:induction false} ConsumersRest(links: seq<Link>)
    requires links != []
    ensures Consumers(links) == [links[0].consumer] + Consumers(links[1..])
  {
  }

  lemma {:induction false} WithoutStep(links: seq<Link>, gone: seq<string>, e: string)
    ensures WithoutConsumer(WithoutAll(links, gone), e) == WithoutAll(links, gone + [e])
    decreases |links|
  {
    if links != [] {
      var l, rest := links[0], WithoutAll(links[1..], gone);
      WithoutStep(links[1..], gone, e);
      if l.consumer in gone {
        assert WithoutAll(links, gone) == rest;
      } else {
        assert WithoutAll(links, gone) == [l] + rest && ([l] + rest)[1..] == rest;
      }
    }
  }

  lemma {:induction false} ConsumersJoin(a: seq<Link>, b: seq<Link>)
    ensures Consumers(a + b) == Consumers(a) + Consumers(b)
  {
  }

  /** A list of links cut after those for `first`. */
  lemma {:induction false} Cut(links: seq<Link>, first: seq<string>, last: seq<string>)
    requires Consumers(links) == first + last
    ensures |first| <= |links| && Consumers(links[..|first|]) == first && Consumers(links[|first|..]) == last
  {
    assert |links| == |first| + |last|;
    forall i | 0 <= i < |last| ensures Consumers(links[|first|..])[i] == last[i] {
      assert Consumers(links)[|first| + i] == last[i];
    }
    forall i | 0 <= i < |first| ensures Consumers(links[..|first|])[i] == first[i] {
      assert Consumers(links)[i] == first[i];
    }
  }

  /** Taking out the links in the middle. */
  lemma {:induction false} WithoutMiddle(links: seq<Link>, first: seq<string>, own: seq<string>, last: seq<string>)
    requires Consumers(links) == first + (own + last)
    requires forall e :: e in first || e in last ==> e !in own
    ensures Consumers(WithoutAll(links, own)) == first + last
  {
    hide Consumers, WithoutAll;
    Cut(links, first, own + last);
    var a, rest := links[..|first|], links[|first|..];
    Cut(rest, own, last);
    var b, c := rest[..|own|], rest[|own|..];
    assert links == a + rest && rest == b + c;
    WithoutJoin(a, rest, own);
    WithoutJoin(b, c, own);
    WithoutOthers(a, own);
    WithoutThese(b, own);
    WithoutOthers(c, own);
    assert [] + c == c;
    ConsumersJoin(a, c);
  }

  /** Removing the links of one child leaves those of the others. */
  lemma {:induction false} WithoutChild(links: seq<Link>, children: seq<Child>, k: nat)
    requires WellNamed(children) && k < |children| && Consumers(links) == Endpoints(children)
    ensures Consumers(WithoutAll(links, Required(children[k]))) == Endpoints(children[..k] + children[k + 1..])
  {
    hide Consumers, WithoutAll, WellNamed, Required;
    var before, c, after := children[..k], children[k], children[k + 1..];
    assert children == before + ([c] + after) && ([c] + after)[1..] == after;
    EndpointsJoin(before, [c] + after);
    EndpointsJoin(before, after);
    OthersApart(children, k);
    assert Endpoints([c] + after) == Required(c) + Endpoints(after);
    WithoutMiddle(links, Endpoints(before), Required(c), Endpoints(after));
  }

  lemma {:induction false} OthersApart(children: seq<Child>, k: nat)
    requires WellNamed(children) && k < |children|
    ensures forall e :: e in Endpoints(children[..k]) ==> e !in Required(children[k])
    ensures forall e :: e in Endpoints(children[k + 1..]) ==> e !in Required(children[k])
  {
    RequiredOfOthers(children[k], children[..k]);
    RequiredOfOthers(children[k], children[k + 1..]);
  }

  /** The links that `updateLinks` leaves: those there were, and new ones for new endpoints. */
  ghost predicate Renewed(was: seq<Link>, now: seq<Link>, endpoints: seq<string>) {
    && Consumers(now) == endpoints
    && forall i :: 0 <= i < |now| ==> (Find(was, endpoints[i]).Some? ==> Find(was, endpoints[i]) == Some(now[i]))
  }

  lemma {:induction false} RestApart(s: seq<string>, rest: seq<string>)
    requires NoRepeats(s) && s != [] && rest == s[1..]
    ensures NoRepeats(rest)
  {
  }

  lemma {:induction false} ApartAt(s: seq<string>, i: nat)
    requires NoRepeats(s) && 0 < i < |s|
    ensures s[0] != s[i]
  {
  }

  lemma {:induction false} FindAt(links: seq<Link>, i: nat)
    requires NoRepeats(Consumers(links)) && i < |links|
    ensures Find(links, links[i].consumer) == Some(links[i])
    decreases i
  {
    var all := Consumers(links);
    ConsumersRest(links);
    assert all[0] == links[0].consumer && all[i] == links[i].consumer;
    if i > 0 {
      hide Consumers, NoRepeats;
      assert all[0] != all[i] by { ApartAt(all, i); }
      RestApart(all, Consumers(links[1..]));
      FindAt(links[1..], i - 1);
    }
  }

  /** Links that are in step already stay as they are. */
  lemma {:induction false} RenewedSame(was: seq<Link>, now: seq<Link>, endpoints: seq<string>)
    requires Renewed(was, now, endpoints) && Consumers(was) == endpoints && NoRepeats(endpoints)
    ensures now == was
  {
    assert |now| == |Consumers(now)| == |was|;
    forall i | 0 <= i < |now| ensures now[i] == was[i] {
      FindAt(was, i);
      assert endpoints[i] == Consumers(was)[i] == was[i].consumer;
    }
  }

  // ------------------------------------------------------------------------
  // Runs
  // ------------------------------------------------------------------------

  /** The children of an application and its links. */
  datatype Wiring = Wiring(children: seq<Child>, links: seq<Link>)

  /** A child is added or removed, the links are updated, or children are edited, which the links do not follow. */
  datatype Move = Join(c: Child) | Leave(c: Child) | Refresh | Edit

  /** One link for each required endpoint, in the order of the children. */
  predicate InStep(s: Wiring) {
    Consumers(s.links) == Endpoints(s.children)
  }

  ghost predicate Moved(s: Wiring, m: Move, s': Wiring) {
    match m
    case Join(c) =>
      && s'.children == s.children + [c] && s.links <= s'.links
      && (NoRepeats(Consumers(s.links) + Required(c)) ==> Consumers(s'.links) == Consumers(s.links) + Required(c))
    case Leave(c) =>
      var k := IndexOf(s.children, c);
      if k.None? then s' == s
      else s' == Wiring(s.children[..k.value] + s.children[k.value + 1..], WithoutAll(s.links, Required(c)))
    case Refresh => s'.children == s.children && Renewed(s.links, s'.links, Endpoints(s.children))
    case Edit => s'.links == s.links
  }

  /** The states of a new application, while its children are always named apart. */
  ghost predicate IsRun(run: seq<Wiring>, moves: seq<Move>) {
    && |run| == |moves| + 1 && run[0] == Wiring([], [])
    && (forall i :: 0 <= i < |run| ==> WellNamed(run[i].children))
    && forall i :: 0 <= i < |moves| ==> Moved(run[i], moves[i], run[i + 1])
  }

  /** Adding, removing and updating keep the links in step; updating brings them in step. */
  lemma {:induction false} MoveInStep(s: Wiring, m: Move, s': Wiring)
    requires WellNamed(s.children) && WellNamed(s'.children) && Moved(s, m, s')
    requires m.Refresh? || (InStep(s) && !m.Edit?)
    ensures InStep(s')
  {
    hide Consumers, Endpoints, WellNamed, Required, NoRepeats, WithoutAll;
    match m
    case Join(c) => NewEndpoints(s.children, c);
    case Leave(c) =>
      var k := IndexOf(s.children, c);
      if k.Some? {
        WithoutChild(s.links, s.children, k.value);
      }
    case Refresh =>
  }

  /** Every edit before the n-th move is followed by an update. */
  ghost predicate Updated(moves: seq<Move>, n: nat)
    requires n <= |moves|
  {
    forall i :: 0 <= i < n && moves[i].Edit? ==> exists j :: i < j < n && moves[j].Refresh?
  }

  /** In every run the links are in step with the children, unless something was edited since the last update. */
  lemma {:induction false} RunInStep(run: seq<Wiring>, moves: seq<Move>, n: nat)
    requires IsRun(run, moves) && n <= |moves| && Updated(moves, n)
    ensures InStep(run[n])
  {
    hide WellNamed, Moved;
    if n > 0 {
      var m := moves[n - 1];
      if !m.Refresh? {
        assert Updated(moves, n - 1);
        RunInStep(run, moves, n - 1);
      }
      MoveInStep(run[n - 1], m, run[n]);
    }
  }

  /** A link stays what it is, with its supplier, as long as some child requires its endpoint. */
  lemma {:induction false} LinksLast(run: seq<Wiring>, moves: seq<Move>, from: nat, to: nat, e: string)
    requires IsRun(run, moves) && from <= to < |run| && Find(run[from].links, e).Some?
    requires forall i :: from <= i <= to ==> e in Endpoints(run[i].children)
    ensures Find(run[to].links, e) == Find(run[from].links, e)
  {
    hide WellNamed, Moved, Find, Endpoints;
    if from < to {
      LinksLast(run, moves, from, to - 1, e);
      LinkStays(run[to - 1], moves[to - 1], run[to], e);
    }
  }

  lemma {:induction false} LinkStays(s: Wiring, m: Move, s': Wiring, e: string)
    requires WellNamed(s.children) && WellNamed(s'.children) && Moved(s, m, s')
    requires Find(s.links, e).Some? && e in Endpoints(s.children) && e in Endpoints(s'.children)
    ensures Find(s'.links, e) == Find(s.links, e)
  {
    hide Consumers, Endpoints, WellNamed, Required, NoRepeats, Find, WithoutAll;
    match m
    case Join(c) => FindPrefix(s.links, s'.links, e);
    case Leave(c) =>
      var k := IndexOf(s.children, c);
      if k.Some? {
        OthersApart(s.children, k.value);
        EndpointsJoin(s.children[..k.value], s.children[k.value + 1..]);
        FindWithout(s.links, Required(c), e);
      }
    case Refresh =>
      EndpointsApart(s.children);
      FindRenewed(s.links, s'.links, Endpoints(s.children), e);
    case Edit =>
  }

  lemma {:induction false} FindWithout(links: seq<Link>, gone: seq<string>, e: string)
    requires e !in gone
    ensures Find(WithoutAll(links, gone), e) == Find(links, e)
    decreases |links|
  {
    if links != [] {
      var l, rest := links[0], WithoutAll(links[1..], gone);
      FindWithout(links[1..], gone, e);
      if l.consumer !in gone {
        assert WithoutAll(links, gone) == [l] + rest && ([l] + rest)[1..] == rest;
      } else {
        assert WithoutAll(links, gone) == rest;
      }
    }
  }

  lemma {:induction false} FindRenewed(was: seq<Link>, now: seq<Link>, endpoints: seq<string>, e: string)
    requires Renewed(was, now, endpoints) && NoRepeats(endpoints) && e in endpoints && Find(was, e).Some?
    ensures Find(now, e) == Find(was, e)
  {
    var i :| 0 <= i < |endpoints| && endpoints[i] == e;
    assert Consumers(now)[i] == now[i].consumer;
    FindAt(now, i);
  }

  /** Updating twice is updating once. */
  lemma {:induction false} UpdateIsIdempotent(s: Wiring, once: Wiring, twice: Wiring)
    requires WellNamed(s.children) && Moved(s, Refresh, once) && Moved(once, Refresh, twice)
    ensures twice == once
  {
    EndpointsApart(s.children);
    RenewedSame(once.links, twice.links, Endpoints(s.children));
  }

  // ------------------------------------------------------------------------
  // The application
  // ------------------------------------------------------------------------

  class ApplicationDeployment {
    var children: seq<Child>
    var links: seq<Link>
    var publicEndpoints: seq<string>

    constructor ()
      ensures children == [] && links == [] && publicEndpoints == []
    {
      children, links, publicEndpoints := [], [], [];
    }

    function Now(): Wiring
      reads this
    {
      Wiring(children, links)
    }

    /** `addLink` */
    method AddLink(consumer: string) returns (link: Link)
      modifies this`links
      ensures link.consumer == consumer
      ensures Find(old(links), consumer).Some? ==> link == Find(old(links), consumer).value && links == old(links)
      ensures Find(old(links), consumer).None? ==> fresh(link) && link.supplier == None && links == old(links) + [link]
    {
      var existing := Find(links, consumer);
      if existing.Some? {
        return existing.value;
      }
      link := new Link(consumer);
      links := links + [link];
    }

    /** `deleteLink` */
    method DeleteLink(consumer: string)
      modifies this`links
      ensures links == WithoutConsumer(old(links), consumer)
    {
      links := WithoutConsumer(links, consumer);
    }

    /** `addLink` for each endpoint: the link that was there already, or a new one. */
    method AddLinks(endpoints: seq<string>) returns (added: seq<Link>)
      modifies this`links
      ensures old(links) <= links && Renewed(old(links), added, endpoints)
      ensures forall j :: 0 <= j < |added| && Find(old(links), endpoints[j]).None? ==> fresh(added[j]) && added[j].supplier == None
      ensures NoRepeats(Consumers(old(links)) + endpoints) ==> Consumers(links) == Consumers(old(links)) + endpoints
    {
      hide *;
      ghost var was := links;
      ghost var allNew := NoRepeats(Consumers(was) + endpoints);
      if allNew {
        EachNew(Consumers(was), endpoints);
      }
      added := [];
      for i := 0 to |endpoints|
        invariant |added| == i && was <= links
        invariant forall j :: 0 <= j < i ==> added[j].consumer == endpoints[j]
        invariant forall j :: 0 <= j < i && Find(was, endpoints[j]).Some? ==> Find(was, endpoints[j]) == Some(added[j])
        invariant forall j :: 0 <= j < i && Find(was, endpoints[j]).None? ==> fresh(added[j]) && added[j].supplier == None
        invariant forall j :: |was| <= j < |links| ==> fresh(links[j]) && links[j].supplier == None
        invariant allNew ==> Consumers(links) == Consumers(was) + endpoints[..i]
      {
        FindPrefix(was, links, endpoints[i]);
        FindSome(links, endpoints[i]);
        ghost var before := links;
        var link := AddLink(endpoints[i]);
        added := added + [link];
        if allNew {
          assert links == before + [link];
          ConsumersJoin(before, [link]);
          assert Consumers([link]) == [endpoints[i]];
        }
        assert endpoints[..i + 1] == endpoints[..i] + [endpoints[i]];
      }
      assert endpoints[..|endpoints|] == endpoints;
      RenewedIf(was, added, endpoints);
    }

    /**
      `updateLinks`: exactly one link for each endpoint that is required now. A link that was there
      is the same object, with its supplier; those no longer required are gone. What is in step stays.
    */
    method UpdateLinks()
      modifies this`links
      ensures Moved(old(Now()), Refresh, Now())
      ensures forall i :: 0 <= i < |links| && Find(old(links), links[i].consumer).None? ==>
                fresh(links[i]) && links[i].supplier == None
      ensures old(InStep(Now())) && NoRepeats(Endpoints(children)) ==> links == old(links)
    {
      hide Find, NoRepeats, Endpoints;
      ghost var was := links;
      var endpoints := Endpoints(children);
      links := AddLinks(endpoints);
      if Consumers(was) == endpoints && NoRepeats(endpoints) {
        RenewedSame(was, links, endpoints);
      }
    }

    /** `addChild` */
    method AddChild(c: Child)
      modifies this`children, this`links
      ensures children == old(children) + [c]
      ensures Moved(old(Now()), Join(c), Now())
    {
      hide Consumers, NoRepeats, Endpoints, Required, WellNamed, Renewed;
      children := children + [c];
      var _ := AddLinks(Required(c));
    }

    /** `oldEndpoints.forEach(this::deleteLink)` */
    method DeleteLinks(consumers: seq<string>)
      modifies this`links
      ensures links == WithoutAll(old(links), consumers)
    {
      hide *;
      ghost var was := links;
      WithoutOthers(was, []);
      for i := 0 to |consumers|
        invariant links == WithoutAll(was, consumers[..i])
      {
        DeleteLink(consumers[i]);
        WithoutStep(was, consumers[..i], consumers[i]);
        assert consumers[..i + 1] == consumers[..i] + [consumers[i]];
      }
      assert consumers[..|consumers|] == consumers;
    }

    /** `forEach(publicEndpoints::remove)` */
    method RemovePublic(offered: seq<string>)
      modifies this`publicEndpoints
      ensures publicEndpoints == TakeOut(old(publicEndpoints), offered)
    {
      assert offered[0..] == offered;
      for i := 0 to |offered|
        invariant TakeOut(publicEndpoints, offered[i..]) == TakeOut(old(publicEndpoints), offered)
      {
        assert offered[i..][0] == offered[i] && offered[i..][1..] == offered[i + 1..];
        publicEndpoints := TakeOutOne(publicEndpoints, offered[i]);
      }
    }

    /** `removeChild` */
    method RemoveChild(c: Child) returns (removed: bool)
      modifies this
      ensures removed == (c in old(children) && c.deployable)
      ensures Moved(old(Now()), Leave(c), Now())
      ensures publicEndpoints == if removed then TakeOut(old(publicEndpoints), Prefixed(c.name, c.offered)) else old(publicEndpoints)
    {
      var k := IndexOf(children, c);
      if k.None? {
        return false;
      }
      children := children[..k.value] + children[k.value + 1..];
      if !c.deployable {
        WithoutOthers(links, []);
        return false;
      }
      DeleteLinks(Required(c));
      RemovePublic(Prefixed(c.name, c.offered));
      removed := true;
    }
  }

  lemma {:induction false} FindSome(links: seq<Link>, consumer: string)
    ensures Find(links, consumer).Some? <==> consumer in Consumers(links)
  {
    if Find(links, consumer).Some? {
      var i :| 0 <= i < |links| && links[i] == Find(links, consumer).value;
      assert Consumers(links)[i] == consumer;
    }
  }

  lemma {:induction false} RenewedIf(was: seq<Link>, now: seq<Link>, endpoints: seq<string>)
    requires |now| == |endpoints|
    requires forall j :: 0 <= j < |now| ==> now[j].consumer == endpoints[j]
    requires forall j :: 0 <= j < |now| && Find(was, endpoints[j]).Some? ==> Find(was, endpoints[j]) == Some(now[j])
    ensures Renewed(was, now, endpoints)
  {
    assert Consumers(now) == endpoints;
  }

  lemma {:induction false} FindPrefix(was: seq<Link>, now: seq<Link>, consumer: string)
    requires was <= now
    ensures Find(was, consumer).Some? ==> Find(now, consumer) == Find(was, consumer)
    ensures Find(was, consumer).None? && Find(now, consumer).Some? ==> Find(now, consumer).value in now[|was|..]
    decreases |was|
  {
    if was != [] {
      assert was[0] == now[0] && was[1..] <= now[1..] && now[1..][|was| - 1..] == now[|was|..];
      FindPrefix(was[1..], now[1..], consumer);
    } else {
      assert now[0..] == now;
    }
  }

  lemma {:induction false} EachNew(s: seq<string>, t: seq<string>)
    requires NoRepeats(s + t)
    ensures forall i :: 0 <= i < |t| ==> t[i] !in s + t[..i]
  {
    var all := s + t;
    forall i | 0 <= i < |t| ensures t[i] !in s + t[..i] {
      assert all[|s| + i] == t[i] && all[..|s| + i] == s + t[..i];
    }
  }

  /** The endpoints of a new child are new, and different from each other. */
  lemma {:induction false} NewEndpoints(children: seq<Child>, c: Child)
    requires WellNamed(children + [c])
    ensures Endpoints(children + [c]) == Endpoints(children) + Required(c) && NoRepeats(Endpoints(children) + Required(c))
    ensures forall i :: 0 <= i < |Required(c)| ==> Required(c)[i] !in Endpoints(children) + Required(c)[..i]
  {
    EndpointsJoin(children, [c]);
    assert [c][1..] == [] && Required(c) + [] == Required(c);
    EndpointsApart(children + [c]);
    EachNew(Endpoints(children), Required(c));
  }
}
