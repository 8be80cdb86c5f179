/**
  The rules that split traffic over backends by weight. Each rule asks whether one of the random numbers of its access
  list is below its weight, of what was left of 100; the first rule for which one is takes the request.
*/
module HAProxyWeights {
  import opened ActionGraph

  datatype BackendWeight = BackendWeight(backend: string, weight: int)

  /** The lines of a frontend's configuration that matter here. */
  datatype Line =
    | RandomAcl(name: string, range: int, limit: int)
    | UseBackend(backend: string, acl: string)
    | CookieAcl(cookie: string)
    | UseCookieBackend(cookie: string)
    | SetCookie(cookie: string)
    | Other(text: string)

  function AclName(backend: string): string {
    "use-" + backend
  }

  /** The rules for these weights when `left` is what the earlier rules left over. */
  function Rules(weights: seq<BackendWeight>, left: int): seq<Line>
    decreases |weights|
  {
    if weights == [] then []
    else
      var w := weights[0];
      [RandomAcl(AclName(w.backend), left, w.weight), UseBackend(w.backend, AclName(w.backend))]
      + Rules(weights[1..], left - w.weight)
  }

  function Sticky(frontend: string): seq<Line> {
    var cookie := frontend + "-BACKENDID";
    [CookieAcl(cookie), UseCookieBackend(cookie), SetCookie(cookie)]
  }

  class FrontendConfig {
    var lines: seq<Line>

    constructor ()
      ensures lines == []
    {
      lines := [];
    }

    /** `generateABTestingRules` */
    method GenerateABTestingRules(frontend: string, stickyBackends: bool, http: bool, weights: seq<BackendWeight>)
      modifies this
      ensures lines == old(lines) + (if stickyBackends && http then Sticky(frontend) else []) + Rules(weights, 100)
    {
      var totalWeight := 100;
      if stickyBackends && http {
        lines := lines + Sticky(frontend);
      }
      ghost var was := lines;
      assert weights[0..] == weights;
      for i := 0 to |weights|
        invariant lines + Rules(weights[i..], totalWeight) == was + Rules(weights, 100)
      {
        var w := weights[i];
        assert weights[i..][0] == w && weights[i..][1..] == weights[i + 1..];
        var rule := [RandomAcl(AclName(w.backend), totalWeight, w.weight), UseBackend(w.backend, AclName(w.backend))];
        assert Rules(weights[i..], totalWeight) == rule + Rules(weights[i + 1..], totalWeight - w.weight);
        assert lines + (rule + Rules(weights[i + 1..], totalWeight - w.weight)) == lines + rule + Rules(weights[i + 1..], totalWeight - w.weight);
        lines := lines + rule;
        totalWeight := totalWeight - w.weight;
      }
      assert lines + [] == lines;
    }
  }

  // ------------------------------------------------------------------------
  // What the lines do (HAProxy Configuration Manual 1.6, sections 7.2 and 7.3.2)
  // ------------------------------------------------------------------------

  /** The ranges of the random numbers, line by line. */
  function Ranges(lines: seq<Line>): seq<int> {
    if lines == [] then []
    else (if lines[0].RandomAcl? then [lines[0].range] else []) + Ranges(lines[1..])
  }

  /**
    Whether the access list `acl` matches: one of the lines of that name does, wherever it stands. The draws hold a
    number for each random line, of which those of other names are not looked at; a cookie line looks for its cookie
    in the request.
  */
  predicate Matches(lines: seq<Line>, cookies: map<string, string>, draws: seq<int>, acl: string)
    decreases |lines|
  {
    if lines == [] then false
    else match lines[0]
      case RandomAcl(name, _, limit) =>
        draws != [] && ((name == acl && draws[0] < limit) || Matches(lines[1..], cookies, draws[1..], acl))
      case CookieAcl(cookie) => (acl == "cook-present" && cookie in cookies) || Matches(lines[1..], cookies, draws, acl)
      case _ => Matches(lines[1..], cookies, draws, acl)
  }

  /**
    The first rule that applies decides. Each rule asks its access list anew, with numbers drawn for it alone: nothing
    is kept from one rule to the next.
  */
  function First(lines: seq<Line>, all: seq<Line>, cookies: map<string, string>, rounds: seq<seq<int>>): Option<string>
    decreases |lines|
  {
    if lines == [] then None
    else match lines[0]
      case UseBackend(backend, acl) =>
        if rounds == [] then None
        else if Matches(all, cookies, rounds[0], acl) then Some(backend)
        else First(lines[1..], all, cookies, rounds[1..])
      case UseCookieBackend(cookie) =>
        if rounds == [] then None
        else if Matches(all, cookies, rounds[0], "cook-present") && cookie in cookies then Some(cookies[cookie])
        else First(lines[1..], all, cookies, rounds[1..])
      case _ => First(lines[1..], all, cookies, rounds)
  }

  function Chosen(lines: seq<Line>, cookies: map<string, string>, rounds: seq<seq<int>>): Option<string> {
    First(lines, lines, cookies, rounds)
  }

  // ------------------------------------------------------------------------
  // The rules as a choice
  // ------------------------------------------------------------------------

  /** Some random line for this backend has drawn a number below its weight. */
  ghost predicate Fires(weights: seq<BackendWeight>, draws: seq<int>, name: string)
    requires |draws| == |weights|
  {
    exists k :: 0 <= k < |weights| && weights[k].backend == name && draws[k] < weights[k].weight
  }

  /** Numbers for each rule, and in each of them one for each random line. */
  ghost predicate Drawn(weights: seq<BackendWeight>, rounds: seq<seq<int>>) {
    |rounds| == |weights| && forall k :: 0 <= k < |rounds| ==> |rounds[k]| == |weights|
  }

  /** The first rule from `at` on whose own numbers fire for its backend, or the number of rules if there is none. */
  ghost function Pick(weights: seq<BackendWeight>, rounds: seq<seq<int>>, at: nat): (k: nat)
    requires Drawn(weights, rounds) && at <= |weights|
    ensures at <= k <= |weights|
    ensures forall m :: at <= m < k ==> !Fires(weights, rounds[m], weights[m].backend)
    ensures k < |weights| ==> Fires(weights, rounds[k], weights[k].backend)
    decreases |weights| - at
  {
    if at == |weights| || Fires(weights, rounds[at], weights[at].backend) then at else Pick(weights, rounds, at + 1)
  }

  lemma {:induction false} MatchesRules(weights: seq<BackendWeight>, left: int, cookies: map<string, string>, draws: seq<int>, acl: string)
    requires weights != [] && draws != []
    ensures Matches(Rules(weights, left), cookies, draws, acl) <==>
            (AclName(weights[0].backend) == acl && draws[0] < weights[0].weight)
            || Matches(Rules(weights[1..], left - weights[0].weight), cookies, draws[1..], acl)
  {
    var rules, rest := Rules(weights, left), Rules(weights[1..], left - weights[0].weight);
    assert rules[1..][1..] == rest;
    assert Matches(rules[1..], cookies, draws[1..], acl) == Matches(rest, cookies, draws[1..], acl);
  }

  /** The list of a backend matches by the numbers drawn for the rules of that name. */
  lemma {:induction false} MatchesOwn(weights: seq<BackendWeight>, left: int, cookies: map<string, string>, draws: seq<int>, name: string)
    requires |draws| == |weights|
    ensures Matches(Rules(weights, left), cookies, draws, AclName(name)) <==>
            Fires(weights, draws, name)
    decreases |weights|
  {
    if weights != [] {
      var w := weights[0];
      MatchesRules(weights, left, cookies, draws, AclName(name));
      MatchesOwn(weights[1..], left - w.weight, cookies, draws[1..], name);
      NameOfAcl(w.backend, name);
      if k :| 0 <= k < |weights| && weights[k].backend == name && draws[k] < weights[k].weight {
        if k > 0 {
          assert weights[1..][k - 1].backend == name && draws[1..][k - 1] < weights[1..][k - 1].weight;
        }
      }
      if k :| 0 <= k < |weights[1..]| && weights[1..][k].backend == name && draws[1..][k] < weights[1..][k].weight {
        assert weights[k + 1].backend == name && draws[k + 1] < weights[k + 1].weight;
      }
    }
  }

  lemma {:induction false} NameOfAcl(a: string, b: string)
    ensures AclName(a) == AclName(b) <==> a == b
  {
    assert AclName(a)[4..] == a && AclName(b)[4..] == b;
  }

  lemma {:induction false} FirstFrom(weights: seq<BackendWeight>, at: nat, left: int, total: int,
                                     cookies: map<string, string>, rounds: seq<seq<int>>)
    requires Drawn(weights, rounds) && at <= |weights|
    ensures var k := Pick(weights, rounds, at);
            First(Rules(weights[at..], left), Rules(weights, total), cookies, rounds[at..])
            == if k == |weights| then None else Some(weights[k].backend)
    decreases |weights| - at
  {
    if at < |weights| {
      var w, all := weights[at], Rules(weights, total);
      var rules, rest := Rules(weights[at..], left), Rules(weights[at + 1..], left - w.weight);
      assert weights[at..][0] == w && weights[at..][1..] == weights[at + 1..];
      assert rounds[at..][0] == rounds[at] && rounds[at..][1..] == rounds[at + 1..];
      assert rules[1] == UseBackend(w.backend, AclName(w.backend)) && rules[1..][1..] == rest;
      MatchesOwn(weights, total, cookies, rounds[at], w.backend);
      assert First(rules, all, cookies, rounds[at..]) == First(rules[1..], all, cookies, rounds[at..]);
      FirstFrom(weights, at + 1, left - w.weight, total, cookies, rounds);
    }
  }

  /** The emitted lines choose the backend of the first rule whose own numbers fire for it, for any list of backends. */
  lemma {:induction false} ChosenIsPick(weights: seq<BackendWeight>, left: int, cookies: map<string, string>, rounds: seq<seq<int>>)
    requires Drawn(weights, rounds)
    ensures var k := Pick(weights, rounds, 0);
            Chosen(Rules(weights, left), cookies, rounds) == if k == |weights| then None else Some(weights[k].backend)
  {
    assert weights[0..] == weights && rounds[0..] == rounds;
    FirstFrom(weights, 0, left, left, cookies, rounds);
  }

  // ------------------------------------------------------------------------
  // Sticky backends
  // ------------------------------------------------------------------------

  lemma {:induction false} NotCookie(backend: string)
    ensures AclName(backend) != "cook-present"
  {
    assert AclName(backend)[0] == 'u';
  }

  /** The rules for the weights never set up the cookie's list. */
  lemma {:induction false} NoCookieRules(weights: seq<BackendWeight>, left: int, cookies: map<string, string>, draws: seq<int>)
    requires |draws| == |weights|
    ensures !Matches(Rules(weights, left), cookies, draws, "cook-present")
    decreases |weights|
  {
    if weights != [] {
      NotCookie(weights[0].backend);
      MatchesRules(weights, left, cookies, draws, "cook-present");
      NoCookieRules(weights[1..], left - weights[0].weight, cookies, draws[1..]);
    }
  }

  lemma {:induction false} MatchesAfter(frontend: string, lines: seq<Line>, cookies: map<string, string>, draws: seq<int>, acl: string)
    ensures Matches(Sticky(frontend) + lines, cookies, draws, acl) <==>
            (acl == "cook-present" && frontend + "-BACKENDID" in cookies) || Matches(lines, cookies, draws, acl)
  {
    hide AclName;
    var all := Sticky(frontend) + lines;
    assert all[1..][1..][1..] == lines;
    assert Matches(all[1..], cookies, draws, acl) == Matches(all[1..][1..], cookies, draws, acl);
    assert Matches(all[1..][1..], cookies, draws, acl) == Matches(lines, cookies, draws, acl);
  }

  lemma {:induction false} FirstAfter(weights: seq<BackendWeight>, left: int, frontend: string, lines: seq<Line>,
                                      cookies: map<string, string>, rounds: seq<seq<int>>)
    ensures First(Rules(weights, left), Sticky(frontend) + lines, cookies, rounds) == First(Rules(weights, left), lines, cookies, rounds)
    decreases |weights|
  {
    if weights != [] && rounds != [] {
      var w, rules := weights[0], Rules(weights, left);
      assert rules[1..][1..] == Rules(weights[1..], left - w.weight);
      NotCookie(w.backend);
      MatchesAfter(frontend, lines, cookies, rounds[0], AclName(w.backend));
      FirstAfter(weights[1..], left - w.weight, frontend, lines, cookies, rounds[1..]);
      assert First(rules, lines, cookies, rounds) == First(rules[1..], lines, cookies, rounds);
      assert First(rules, Sticky(frontend) + lines, cookies, rounds) == First(rules[1..], Sticky(frontend) + lines, cookies, rounds);
    } else if weights != [] {
      var rules := Rules(weights, left);
      assert First(rules, lines, cookies, rounds) == First(rules[1..], lines, cookies, rounds) == None;
      assert First(rules, Sticky(frontend) + lines, cookies, rounds) == First(rules[1..], Sticky(frontend) + lines, cookies, rounds) == None;
    }
  }

  /** With sticky backends a request that carries the cookie goes where the cookie says; the others go by weight. */
  lemma {:induction false} CookieDecides(frontend: string, weights: seq<BackendWeight>, left: int,
                                         cookies: map<string, string>, rounds: seq<seq<int>>)
    requires |rounds| == |weights| + 1 && forall draws :: draws in rounds ==> |draws| == |weights|
    ensures var cookie := frontend + "-BACKENDID";
            Chosen(Sticky(frontend) + Rules(weights, left), cookies, rounds)
            == if cookie in cookies then Some(cookies[cookie]) else Chosen(Rules(weights, left), cookies, rounds[1..])
  {
    hide Rules;
    var lines := Rules(weights, left);
    var all := Sticky(frontend) + lines;
    assert all[1..][1..][1..] == lines;
    MatchesAfter(frontend, lines, cookies, rounds[0], "cook-present");
    NoCookieRules(weights, left, cookies, rounds[0]);
    FirstAfter(weights, left, frontend, lines, cookies, rounds[1..]);
    assert First(all, all, cookies, rounds) == First(all[1..], all, cookies, rounds);
    assert frontend + "-BACKENDID" !in cookies ==>
      First(all[1..], all, cookies, rounds) == First(all[1..][1..], all, cookies, rounds[1..])
      == First(all[1..][1..][1..], all, cookies, rounds[1..]);
  }

  /** What the client has in its cookies after the answer of a backend. */
  function Answered(lines: seq<Line>, cookies: map<string, string>, backend: string): map<string, string> {
    if lines == [] then cookies
    else Answered(lines[1..], if lines[0].SetCookie? then cookies[lines[0].cookie := backend] else cookies, backend)
  }

  lemma {:induction false} RulesSetNothing(weights: seq<BackendWeight>, left: int, cookies: map<string, string>, backend: string)
    ensures Answered(Rules(weights, left), cookies, backend) == cookies
    decreases |weights|
  {
    if weights != [] {
      var rules := Rules(weights, left);
      assert rules[1..][1..] == Rules(weights[1..], left - weights[0].weight);
      RulesSetNothing(weights[1..], left - weights[0].weight, cookies, backend);
      assert Answered(rules, cookies, backend) == Answered(rules[1..], cookies, backend);
    }
  }

  /** Sticky backends stick: whichever backend answered, the next request goes there again, whatever is drawn. */
  lemma {:induction false} BackendSticks(frontend: string, weights: seq<BackendWeight>, cookies: map<string, string>, backend: string,
                                         rounds: seq<seq<int>>)
    requires |rounds| == |weights| + 1 && forall draws :: draws in rounds ==> |draws| == |weights|
    ensures var lines := Sticky(frontend) + Rules(weights, 100);
            Chosen(lines, Answered(lines, cookies, backend), rounds) == Some(backend)
  {
    hide Rules, Chosen;
    var lines := Sticky(frontend) + Rules(weights, 100);
    var cookie := frontend + "-BACKENDID";
    assert lines[1..][1..][1..] == Rules(weights, 100);
    RulesSetNothing(weights, 100, cookies[cookie := backend], backend);
    assert Answered(lines, cookies, backend) == Answered(lines[1..], cookies, backend);
    assert Answered(lines[1..], cookies, backend) == Answered(lines[1..][1..], cookies, backend);
    assert Answered(lines[1..][1..], cookies, backend) == Answered(lines[1..][1..][1..], cookies[cookie := backend], backend);
    CookieDecides(frontend, weights, 100, cookies[cookie := backend], rounds);
  }
}
