/**
  Weights are percentages: when each backend gets exactly the sum of its weights of a hundred requests.
*/
module HAProxySums {
  import opened ActionGraph
  import opened HAProxyWeights
  import opened HAProxyShares

  // ------------------------------------------------------------------------
  // The condition
  // ------------------------------------------------------------------------

  /** The backends that the rules before the i-th name. */
  function NamesBefore(weights: seq<BackendWeight>, i: nat): set<string>
    requires i <= |weights|
  {
    set k | 0 <= k < i :: weights[k].backend
  }

  /** The first rule with this name, or their number if there is none. */
  function IndexOf(weights: seq<BackendWeight>, name: string): (n: nat)
    ensures n <= |weights|
    ensures n < |weights| ==> weights[n].backend == name
    ensures forall k :: 0 <= k < n ==> weights[k].backend != name
  {
    if weights == [] then 0
    else if weights[0].backend == name then 0
    else
      var n := IndexOf(weights[1..], name);
      assert forall k :: 0 < k < n + 1 ==> weights[k] == weights[1..][k - 1];
      n + 1
  }

  /** A rule with a weight is overtaken by a later rule with a weight, of a backend that was named before its own. */
  predicate Overtakes(weights: seq<BackendWeight>, j: nat, k: nat) {
    && j < k < |weights| && weights[j].weight > 0 && weights[k].weight > 0
    && IndexOf(weights, weights[k].backend) < IndexOf(weights, weights[j].backend)
  }

  ghost predicate NoneOvertakes(weights: seq<BackendWeight>) {
    forall j: nat, k: nat :: !Overtakes(weights, j, k)
  }

  /** The rule names a backend again that has some weight. */
  predicate Repeats(weights: seq<BackendWeight>, i: nat) {
    i < |weights| && weights[i].backend in NamesBefore(weights, i) && SumIn(weights, {weights[i].backend}) > 0
  }

  /** The backends named before the i-th rule have the whole hundred among them: so one of those rules fires. */
  predicate Exhausted(weights: seq<BackendWeight>, i: nat)
    requires i <= |weights|
  {
    Sum(weights) == 100 && forall k | 0 <= k < |weights| && weights[k].weight > 0 :: weights[k].backend in NamesBefore(weights, i)
  }

  /** No rule is overtaken, and a backend is named again only where no request comes. */
  ghost predicate Orderly(weights: seq<BackendWeight>) {
    NoneOvertakes(weights) && forall i: nat :: Repeats(weights, i) ==> Exhausted(weights, i)
  }

  /** Each backend gets the sum of its weights of every hundred equally likely draws. */
  ghost predicate Exact(weights: seq<BackendWeight>, cookies: map<string, string>) {
    forall name :: ExactFor(weights, cookies, name)
  }

  ghost predicate ExactFor(weights: seq<BackendWeight>, cookies: map<string, string>, name: string) {
    100 * |SentTo(weights, cookies, Some(name))| == SumIn(weights, {name}) * Total(weights)
  }

  // ------------------------------------------------------------------------
  // Sums and names
  // ------------------------------------------------------------------------

  lemma {:induction false} NamesStep(weights: seq<BackendWeight>, i: nat)
    requires i < |weights|
    ensures NamesBefore(weights, i + 1) == NamesBefore(weights, i) + {weights[i].backend}
  {
  }

  lemma {:induction false} SumInMore(weights: seq<BackendWeight>, names: set<string>, name: string)
    requires name !in names
    ensures SumIn(weights, names + {name}) == SumIn(weights, names) + SumIn(weights, {name})
    decreases |weights|
  {
    if weights != [] {
      SumInMore(weights[1..], names, name);
    }
  }

  lemma {:induction false} SumInNone(weights: seq<BackendWeight>, names: set<string>)
    requires forall k :: 0 <= k < |weights| ==> weights[k].backend !in names
    ensures SumIn(weights, names) == 0
    decreases |weights|
  {
    if weights != [] {
      SumInNone(weights[1..], names);
    }
  }

  lemma {:induction false} SumInWhole(weights: seq<BackendWeight>, left: int, names: set<string>)
    requires Proper(weights, left)
    ensures SumIn(weights, names) == Sum(weights) <==>
            forall k :: 0 <= k < |weights| && weights[k].weight > 0 ==> weights[k].backend in names
    decreases |weights|
  {
    if weights != [] {
      var rest, less := weights[1..], left - weights[0].weight;
      SumInWhole(rest, less, names);
      SumsFit(rest, less, names);
      assert forall k :: 0 < k < |weights| ==> weights[k] == rest[k - 1];
      if SumIn(rest, names) != Sum(rest) {
        var k :| 0 <= k < |rest| && rest[k].weight > 0 && rest[k].backend !in names;
        assert weights[k + 1] == rest[k];
      }
    }
  }

  /** The sum of the weights of the backends named before the i-th rule. */
  function SumBefore(weights: seq<BackendWeight>, i: nat): int
    requires i <= |weights|
  {
    SumIn(weights, NamesBefore(weights, i))
  }

  lemma {:induction false} SumBeforeStep(weights: seq<BackendWeight>, i: nat)
    requires i < |weights|
    ensures SumBefore(weights, i + 1) == SumBefore(weights, i)
            + if weights[i].backend in NamesBefore(weights, i) then 0 else SumIn(weights, {weights[i].backend})
  {
    hide SumIn;
    NamesStep(weights, i);
    if weights[i].backend in NamesBefore(weights, i) {
      assert NamesBefore(weights, i + 1) == NamesBefore(weights, i);
    } else {
      SumInMore(weights, NamesBefore(weights, i), weights[i].backend);
    }
  }

  lemma {:induction false} SumBeforeEnds(weights: seq<BackendWeight>)
    requires Proper(weights, 100)
    ensures SumBefore(weights, 0) == 0 && SumBefore(weights, |weights|) == Sum(weights)
  {
    SumInNone(weights, NamesBefore(weights, 0));
    SumInWhole(weights, 100, NamesBefore(weights, |weights|));
  }

  lemma {:induction false} ExhaustedIs(weights: seq<BackendWeight>, i: nat)
    requires Proper(weights, 100) && Sum(weights) <= 100 && i <= |weights|
    ensures SumBefore(weights, i) <= 100 && (Exhausted(weights, i) <==> SumBefore(weights, i) == 100)
  {
    SumsFit(weights, 100, NamesBefore(weights, i));
    SumInWhole(weights, 100, NamesBefore(weights, i));
  }

  lemma {:induction false} BehindIf(weights: seq<BackendWeight>, names: set<string>, outside: bool, j: nat, k: nat)
    requires k < |weights| && weights[k].weight > 0 && weights[k].backend in names
    requires outside || (j < k && weights[j].weight > 0 && weights[j].backend !in names)
    ensures Behind(weights, names, outside)
    decreases |weights|
  {
    var first := weights[0];
    if first.weight <= 0 || first.backend in names {
      if k > 0 {
        BehindIf(weights[1..], names, outside, if j == 0 then 0 else j - 1, k - 1);
      }
    } else {
      BehindIf(weights[1..], names, true, 0, k - 1);
    }
  }

  lemma {:induction false} BehindBy(weights: seq<BackendWeight>, names: set<string>, outside: bool) returns (j: nat, k: nat)
    requires Behind(weights, names, outside)
    ensures k < |weights| && weights[k].weight > 0 && weights[k].backend in names
    ensures outside || (j < k && weights[j].weight > 0 && weights[j].backend !in names)
    decreases |weights|
  {
    var first := weights[0];
    if first.weight > 0 && first.backend in names && outside {
      j, k := 0, 0;
    } else if first.weight <= 0 || first.backend in names {
      j, k := BehindBy(weights[1..], names, outside);
      j, k := j + 1, k + 1;
    } else {
      j, k := BehindBy(weights[1..], names, true);
      j, k := 0, k + 1;
    }
  }

  lemma {:induction false} NoneBehind(weights: seq<BackendWeight>)
    ensures NoneOvertakes(weights) <==> forall i :: 0 <= i <= |weights| ==> !Behind(weights, NamesBefore(weights, i), false)
  {
    if i :| 0 <= i <= |weights| && Behind(weights, NamesBefore(weights, i), false) {
      var j, k := BehindBy(weights, NamesBefore(weights, i), false);
      assert IndexOf(weights, weights[k].backend) < i <= IndexOf(weights, weights[j].backend);
      assert Overtakes(weights, j, k);
    }
    if j: nat, k: nat :| Overtakes(weights, j, k) {
      var i := IndexOf(weights, weights[k].backend) + 1;
      assert weights[i - 1].backend in NamesBefore(weights, i) && weights[j].backend !in NamesBefore(weights, i);
      BehindIf(weights, NamesBefore(weights, i), false, j, k);
    }
  }

  // ------------------------------------------------------------------------
  // What reaches a rule
  // ------------------------------------------------------------------------

  /** All that the backends named before the i-th rule are to get has been given when it is reached, and nothing else. */
  ghost predicate Level(weights: seq<BackendWeight>, i: nat)
    requires i <= |weights|
  {
    100 * |Reached(weights, i)| == (100 - SumBefore(weights, i)) * Total(weights)
  }

  lemma {:induction false} Chained(a: int, b: int, c: int, m: int, n: int, t: int, q: int)
    requires n > 0 && q >= 0
    requires b * n == a * q && c * n == m * q && a * n <= m * t
    ensures b * n <= c * t
  {
    assert (b * n) * n == (a * n) * q by {
      assert (a * q) * n == (a * n) * q;
    }
    assert (c * t) * n == (m * t) * q by {
      assert (c * n) * t == (m * q) * t == (m * t) * q;
      assert (c * t) * n == (c * n) * t;
    }
    AtMost(a * n, m * t, q);
    Cancel(b * n, c * t, n);
  }

  lemma {:induction false} AtMost(a: int, b: int, c: int)
    requires a <= b && c >= 0
    ensures a * c <= b * c
  {
  }

  lemma {:induction false} Cancel(a: int, b: int, c: int)
    requires a * c <= b * c && c > 0
    ensures a <= b
  {
  }

  /** What reaches a rule has missed each of the backends named before at least once. */
  lemma {:induction false} ReachedBound(weights: seq<BackendWeight>, i: nat)
    requires Proper(weights, 100) && i <= |weights|
    ensures |Reached(weights, i)| * Misses(weights, 100, {}) <= Misses(weights, 100, NamesBefore(weights, i)) * Total(weights)
    decreases i
  {
    hide Misses, Reached, Total, Proper;
    if i == 0 {
      assert NamesBefore(weights, 0) == {};
      ReachedAll(weights);
    } else {
      var name, names, next := weights[i - 1].backend, NamesBefore(weights, i - 1), NamesBefore(weights, i);
      var n, t := Misses(weights, 100, {}), Total(weights);
      ReachedBound(weights, i - 1);
      NamesStep(weights, i - 1);
      if name in names {
        assert next == names;
        DecidedStep(weights, {}, i - 1);
        AtMost(|Reached(weights, i)|, |Reached(weights, i - 1)|, n);
      } else {
        SomeDraws(weights, 100);
        ReachedStep(weights, i - 1);
        MissesTogether(weights, 100, names, name);
        Chained(|Reached(weights, i - 1)|, |Reached(weights, i)|, Misses(weights, 100, next), Misses(weights, 100, names), n, t,
                Misses(weights, 100, {name}));
      }
    }
  }

  lemma {:induction false} ReachedAll(weights: seq<BackendWeight>)
    ensures |Reached(weights, 0)| == Total(weights)
  {
  }

  lemma {:induction false} Between(r: int, n: int, m: int, t: int, x: int)
    requires n > 0 && t > 0 && r * n <= m * t && 100 * m <= x * n
    ensures 100 * r <= x * t
    ensures 100 * r == x * t ==> 100 * m == x * n
  {
    assert (100 * r) * n == 100 * (r * n) <= 100 * (m * t) == (100 * m) * t;
    AtMost(100 * m, x * n, t);
    assert (x * n) * t == (x * t) * n;
    Cancel(100 * r, x * t, n);
    if 100 * r == x * t {
      Cancel(x * n, 100 * m, t);
    }
  }

  /** At most what is left over reaches a rule; and less, if a weight named before stands behind another one. */
  lemma {:induction false} LevelBound(weights: seq<BackendWeight>, i: nat)
    requires Proper(weights, 100) && Sum(weights) <= 100 && i <= |weights|
    ensures 100 * |Reached(weights, i)| <= (100 - SumBefore(weights, i)) * Total(weights)
    ensures Level(weights, i) ==> !Behind(weights, NamesBefore(weights, i), false)
  {
    hide Misses, Reached, Total, Proper, Behind;
    var names := NamesBefore(weights, i);
    ReachedBound(weights, i);
    MissesBound(weights, 100, 100, names);
    SomeDraws(weights, 100);
    SomeRounds(weights);
    Between(|Reached(weights, i)|, Misses(weights, 100, {}), Misses(weights, 100, names), Total(weights), 100 - SumBefore(weights, i));
  }

  // ------------------------------------------------------------------------
  // From rule to rule
  // ------------------------------------------------------------------------

  lemma {:induction false} Onward(r: int, r': int, n: int, q: int, m: int, m': int, x: int, x': int, t: int)
    requires n > 0 && r' * n == r * q && m' * n == m * q
    requires 100 * m == x * n && 100 * m' == x' * n && 100 * r == x * t
    ensures 100 * r' == x' * t
  {
    OnwardLeft(n, q, m, m', x, x');
    Reordered(100, r', n);
    Reordered(100, r, q);
    Swapped(x, t, q);
    Swapped(x', n, t);
    assert (100 * r') * n == (100 * r) * q == (x * t) * q == (x * q) * t == (x' * n) * t == (x' * t) * n;
    Same(100 * r', x' * t, n);
  }

  lemma {:induction false} OnwardLeft(n: int, q: int, m: int, m': int, x: int, x': int)
    requires n > 0 && m' * n == m * q && 100 * m == x * n && 100 * m' == x' * n
    ensures x' * n == x * q
  {
    Reordered(100, m', n);
    Reordered(100, m, q);
    Swapped(x, n, q);
    assert (x' * n) * n == (100 * m') * n == (100 * m) * q == (x * n) * q == (x * q) * n;
    Same(x' * n, x * q, n);
  }

  lemma {:induction false} Reordered(a: int, b: int, c: int)
    ensures (a * b) * c == a * (b * c)
  {
  }

  lemma {:induction false} Swapped(a: int, b: int, c: int)
    ensures (a * b) * c == (a * c) * b
  {
  }

  /** A backend without weights is missed by all draws, one with some is not. */
  lemma {:induction false} MissesAll(weights: seq<BackendWeight>, name: string)
    requires Proper(weights, 100) && Sum(weights) <= 100
    ensures Misses(weights, 100, {name}) <= Misses(weights, 100, {})
    ensures Misses(weights, 100, {name}) == Misses(weights, 100, {}) <==> SumIn(weights, {name}) == 0
  {
    hide Misses, Behind, Proper;
    var q, n, s := Misses(weights, 100, {name}), Misses(weights, 100, {}), SumIn(weights, {name});
    SumsFit(weights, 100, {name});
    SomeDraws(weights, 100);
    MissesBound(weights, 100, 100, {name});
    ProductSign(s, n);
    assert (100 - s) * n == 100 * n - s * n;
    if s == 0 && Behind(weights, {name}, false) {
      var j, k := BehindBy(weights, {name}, false);
      SumInAt(weights, 100, {name}, k);
    }
  }

  lemma {:induction false} SumInAt(weights: seq<BackendWeight>, left: int, names: set<string>, k: nat)
    requires Proper(weights, left) && k < |weights| && weights[k].backend in names
    ensures SumIn(weights, names) >= weights[k].weight
    decreases k
  {
    SumsFit(weights[1..], left - weights[0].weight, names);
    if k > 0 {
      SumInAt(weights[1..], left - weights[0].weight, names, k - 1);
    }
  }

  lemma {:induction false} LevelStep(weights: seq<BackendWeight>, i: nat)
    requires Proper(weights, 100) && Sum(weights) <= 100 && i < |weights| && Level(weights, i)
    requires !Behind(weights, NamesBefore(weights, i), false) && !Behind(weights, NamesBefore(weights, i + 1), false)
    requires Repeats(weights, i) ==> Exhausted(weights, i)
    ensures Level(weights, i + 1)
  {
    hide Misses, Reached, Total, Proper, Behind, SumIn, Exhausted;
    var name, names, next := weights[i].backend, NamesBefore(weights, i), NamesBefore(weights, i + 1);
    var n, q := Misses(weights, 100, {}), Misses(weights, 100, {name});
    SomeDraws(weights, 100);
    ReachedStep(weights, i);
    NamesStep(weights, i);
    SumBeforeStep(weights, i);
    if name in names {
      SumsFit(weights, 100, {name});
      if SumIn(weights, {name}) == 0 {
        MissesAll(weights, name);
        Same(|Reached(weights, i + 1)|, |Reached(weights, i)|, n);
      } else {
        ExhaustedIs(weights, i);
        DecidedStep(weights, {}, i);
      }
    } else {
      MissesBound(weights, 100, 100, names);
      MissesBound(weights, 100, 100, next);
      MissesTogether(weights, 100, names, name);
      Onward(|Reached(weights, i)|, |Reached(weights, i + 1)|, n, q, Misses(weights, 100, names), Misses(weights, 100, next),
             100 - SumBefore(weights, i), 100 - SumBefore(weights, i + 1), Total(weights));
    }
  }

  lemma {:induction false} Same(a: int, b: int, n: int)
    requires a * n == b * n && n > 0
    ensures a == b
  {
    Cancel(a, b, n);
    Cancel(b, a, n);
  }

  lemma {:induction false} LevelsIf(weights: seq<BackendWeight>, i: nat)
    requires Proper(weights, 100) && Sum(weights) <= 100 && Orderly(weights) && i <= |weights|
    ensures Level(weights, i)
    decreases i
  {
    hide Proper, Behind, Level, Repeats, Exhausted, NoneOvertakes, Overtakes, NamesBefore;
    if i == 0 {
      LevelFirst(weights);
    } else {
      NoneBehind(weights);
      LevelsIf(weights, i - 1);
      LevelStep(weights, i - 1);
    }
  }

  lemma {:induction false} LevelFirst(weights: seq<BackendWeight>)
    requires Proper(weights, 100)
    ensures Level(weights, 0)
  {
    hide Reached, Total;
    ReachedAll(weights);
    SumBeforeEnds(weights);
  }

  lemma {:induction false} LevelsOnlyIf(weights: seq<BackendWeight>)
    requires Proper(weights, 100) && Sum(weights) <= 100 && forall i :: 0 <= i <= |weights| ==> Level(weights, i)
    ensures Orderly(weights)
  {
    hide Proper, Behind, Level, Exhausted, NoneOvertakes, Overtakes, NamesBefore;
    forall i | 0 <= i <= |weights| ensures !Behind(weights, NamesBefore(weights, i), false) {
      LevelBound(weights, i);
    }
    NoneBehind(weights);
    forall i: nat | Repeats(weights, i) ensures Exhausted(weights, i) {
      RepeatedExhausted(weights, i);
    }
  }

  lemma {:induction false} RepeatedExhausted(weights: seq<BackendWeight>, i: nat)
    requires Proper(weights, 100) && Sum(weights) <= 100 && Repeats(weights, i)
    requires Level(weights, i) && Level(weights, i + 1)
    ensures Exhausted(weights, i)
  {
    hide Misses, Reached, Total, Proper, SumIn, Exhausted;
    var name := weights[i].backend;
    var r, t, n, q := |Reached(weights, i)|, Total(weights), Misses(weights, 100, {}), Misses(weights, 100, {name});
    SumBeforeStep(weights, i);
    assert |Reached(weights, i + 1)| == r;
    ReachedStep(weights, i);
    MissesAll(weights, name);
    if r > 0 {
      assert r * (n - q) == 0;
      ProductSign(r, n - q);
    }
    SomeRounds(weights);
    ExhaustedIs(weights, i);
    ProductSign(100 - SumBefore(weights, i), t);
  }

  // ------------------------------------------------------------------------
  // Levels and shares
  // ------------------------------------------------------------------------

  /** If all levels are right, the rules before the i-th have given each backend they name just what it is to get. */
  lemma {:induction false} DecidedLevel(weights: seq<BackendWeight>, name: string, i: nat)
    requires Proper(weights, 100) && i <= |weights| && forall m :: 0 <= m <= |weights| ==> Level(weights, m)
    ensures 100 * |Decided(weights, {name}, i)|
         == (if name in NamesBefore(weights, i) then SumIn(weights, {name}) else 0) * Total(weights)
    decreases i
  {
    hide Decided, Reached, Total, Proper, SumIn;
    if i == 0 {
      NoneDecided(weights, {name});
    } else {
      DecidedLevel(weights, name, i - 1);
      DecidedStep(weights, {name}, i - 1);
      NamesStep(weights, i - 1);
      assert Level(weights, i - 1) && Level(weights, i);
      if weights[i - 1].backend == name {
        SumBeforeStep(weights, i - 1);
        var x, x', t := 100 - SumBefore(weights, i - 1), 100 - SumBefore(weights, i), Total(weights);
        assert x * t - x' * t == (x - x') * t;
      }
    }
  }

  lemma {:induction false} NoneDecided(weights: seq<BackendWeight>, names: set<string>)
    ensures |Decided(weights, names, 0)| == 0
  {
    assert Decided(weights, names, 0) == {};
  }

  lemma {:induction false} ExactIfLevels(weights: seq<BackendWeight>, cookies: map<string, string>)
    requires Proper(weights, 100) && forall m :: 0 <= m <= |weights| ==> Level(weights, m)
    ensures Exact(weights, cookies)
    ensures 100 * |SentTo(weights, cookies, None)| == (100 - Sum(weights)) * Total(weights)
  {
    hide Decided, SentTo, Reached, Total, Proper, SumIn;
    forall name ensures ExactFor(weights, cookies, name) {
      SentIsDecided(weights, cookies, name);
      DecidedLevel(weights, name, |weights|);
      if name !in NamesBefore(weights, |weights|) {
        SumInNone(weights, {name});
      }
    }
    NoneIsReached(weights, cookies);
    SumBeforeEnds(weights);
    assert Level(weights, |weights|);
  }

  lemma {:induction false} DecidedMore(weights: seq<BackendWeight>, names: set<string>, name: string)
    requires name !in names
    ensures |Decided(weights, names + {name}, |weights|)| == |Decided(weights, names, |weights|)| + |Decided(weights, {name}, |weights|)|
  {
    hide Rounds, Drawn;
    var a, b := Decided(weights, names, |weights|), Decided(weights, {name}, |weights|);
    assert Decided(weights, names + {name}, |weights|) == a + b && a !! b;
  }

  /** If all shares are exact, so are those of the backends named before the i-th rule together. */
  lemma {:induction false} DecidedExact(weights: seq<BackendWeight>, cookies: map<string, string>, i: nat)
    requires Proper(weights, 100) && Exact(weights, cookies) && i <= |weights|
    ensures 100 * |Decided(weights, NamesBefore(weights, i), |weights|)| == SumBefore(weights, i) * Total(weights)
    decreases i
  {
    hide Decided, SentTo, Reached, Total, Proper, SumIn;
    if i == 0 {
      assert NamesBefore(weights, 0) == {};
      NamelessDecided(weights);
      SumBeforeEnds(weights);
    } else {
      var name, names := weights[i - 1].backend, NamesBefore(weights, i - 1);
      DecidedExact(weights, cookies, i - 1);
      NamesStep(weights, i - 1);
      SumBeforeStep(weights, i - 1);
      if name in names {
        assert NamesBefore(weights, i) == names;
      } else {
        DecidedMore(weights, names, name);
        SentIsDecided(weights, cookies, name);
        assert ExactFor(weights, cookies, name);
        var a, b, t := SumBefore(weights, i - 1), SumIn(weights, {name}), Total(weights);
        assert (a + b) * t == a * t + b * t;
      }
    }
  }

  lemma {:induction false} NamelessDecided(weights: seq<BackendWeight>)
    ensures |Decided(weights, {}, |weights|)| == 0
  {
    assert Decided(weights, {}, |weights|) == {};
  }

  /** What does not reach a rule was decided for a backend named before it. */
  lemma {:induction false} DecidedBefore(weights: seq<BackendWeight>, i: nat)
    requires Proper(weights, 100) && i <= |weights|
    ensures Total(weights) - |Reached(weights, i)| <= |Decided(weights, NamesBefore(weights, i), |weights|)| <= Total(weights)
  {
    hide Rounds, Reached, Drawn, Proper;
    var names := NamesBefore(weights, i);
    var gone := Rounds(weights) - Reached(weights, i);
    ReachedDrawn(weights, i);
    SizeLess(Rounds(weights), Reached(weights, i));
    forall rounds | rounds in gone ensures rounds in Decided(weights, names, |weights|) {
      RoundsDrawn(weights, rounds);
      ReachedIs(weights, i, rounds);
    }
    SizeAtMost(Decided(weights, names, |weights|), gone);
    SizeAtMost(Rounds(weights), Decided(weights, names, |weights|));
  }

  lemma {:induction false} LevelsIfExact(weights: seq<BackendWeight>, cookies: map<string, string>)
    requires Proper(weights, 100) && Exact(weights, cookies)
    ensures Sum(weights) <= 100 && forall i :: 0 <= i <= |weights| ==> Level(weights, i)
  {
    hide Decided, SentTo, Reached, Total, Proper, SumIn, Exact, NamesBefore;
    var t := Total(weights);
    SomeRounds(weights);
    DecidedExact(weights, cookies, |weights|);
    DecidedBefore(weights, |weights|);
    SumBeforeEnds(weights);
    Cancel(Sum(weights), 100, t);
    forall i | 0 <= i <= |weights| ensures Level(weights, i) {
      DecidedExact(weights, cookies, i);
      DecidedBefore(weights, i);
      LevelBound(weights, i);
      assert (100 - SumBefore(weights, i)) * t == 100 * t - SumBefore(weights, i) * t;
    }
  }

  /**
    Every backend gets exactly the sum of its weights of a hundred requests if and only if the weights do not exceed a
    hundred, no rule is overtaken, and a backend with a weight is named again only after backends that have the whole
    hundred. The rest then goes to none of them.
  */
  lemma {:induction false} SumsAreExact(weights: seq<BackendWeight>, cookies: map<string, string>)
    requires Proper(weights, 100)
    ensures Exact(weights, cookies) <==> Sum(weights) <= 100 && Orderly(weights)
    ensures Exact(weights, cookies) ==> 100 * |SentTo(weights, cookies, None)| == (100 - Sum(weights)) * Total(weights)
    ensures Total(weights) > 0
  {
    hide SentTo, Total, Proper, Exact, Orderly, Level;
    SomeRounds(weights);
    if Sum(weights) <= 100 && Orderly(weights) {
      forall i | 0 <= i <= |weights| ensures Level(weights, i) {
        LevelsIf(weights, i);
      }
      ExactIfLevels(weights, cookies);
    } else if Exact(weights, cookies) {
      LevelsIfExact(weights, cookies);
      LevelsOnlyIf(weights);
      assert false;
    }
  }

  /** With a sum below a hundred: no backend that has a weight is listed twice, at all. */
  lemma {:induction false} BelowHundred(weights: seq<BackendWeight>, cookies: map<string, string>)
    requires Proper(weights, 100) && Sum(weights) < 100
    ensures Exact(weights, cookies) <==> forall i: nat :: !Repeats(weights, i)
  {
    hide Exact, Proper;
    SumsAreExact(weights, cookies);
    if j: nat, k: nat :| Overtakes(weights, j, k) {
      SumInAt(weights, 100, {weights[k].backend}, k);
      assert Repeats(weights, k);
    }
  }

  // ------------------------------------------------------------------------
  // Different backends
  // ------------------------------------------------------------------------

  ghost predicate Distinct(weights: seq<BackendWeight>) {
    forall i, j :: 0 <= i < j < |weights| ==> weights[i].backend != weights[j].backend
  }

  function Min(a: int, b: int): int {
    if a < b then a else b
  }

  function Max(a: int, b: int): int {
    if a < b then b else a
  }

  /** The share of the k-th rule, of a hundred: its weight, or what is left if that is less. */
  function Share(weights: seq<BackendWeight>, k: nat): int
    requires k <= |weights|
  {
    if k == |weights| then Max(LeftAt(weights, 100, k), 0) else Min(weights[k].weight, LeftAt(weights, 100, k))
  }

  lemma {:induction false} LeftStep(weights: seq<BackendWeight>, left: int, k: nat)
    requires k < |weights|
    ensures LeftAt(weights, left, k + 1) == LeftAt(weights, left, k) - weights[k].weight
    decreases k
  {
    if k > 0 {
      LeftStep(weights[1..], left - weights[0].weight, k - 1);
    }
  }

  /** A backend that is named once is missed in the proportion of what its rule leaves to what it found. */
  lemma {:induction false} MissesOnce(weights: seq<BackendWeight>, k: nat)
    requires Distinct(weights) && Proper(weights, 100) && k < |weights|
    ensures Misses(weights, 100, {weights[k].backend}) * LeftAt(weights, 100, k)
         == Misses(weights, 100, {}) * Max(LeftAt(weights, 100, k + 1), 0)
  {
    hide Interval, Box;
    var all, missed := Missing(weights, 100, {}), Missing(weights, 100, {weights[k].backend});
    var own := Interval(weights[k].weight, LeftAt(weights, 100, k));
    MissingLong(weights, 100, {});
    MissingLong(weights, 100, {weights[k].backend});
    forall m | 0 <= m < |weights| ensures missed[m] == all[k := own][m] {
      MissingAt(weights, 100, {}, m);
      MissingAt(weights, 100, {weights[k].backend}, m);
    }
    assert missed == all[k := own];
    MissingAt(weights, 100, {}, k);
    ProperAt(weights, 100, k);
    LeftStep(weights, 100, k);
    BoxReplaced(all, k, own);
  }

  lemma {:induction false} Passed(r: int, r': int, n: int, q: int, l: int, l': int, t: int)
    requires n > 0 && l > 0 && 100 * r == l * t && r' * n == r * q && q * l == n * l'
    ensures 100 * r' == l' * t
  {
    assert (100 * r') * n == 100 * (r * q) == (100 * r) * q == (l * t) * q == (q * l) * t == (n * l') * t == (l' * t) * n;
    Same(100 * r', l' * t, n);
  }

  /** What reaches a rule is what is left, of a hundred. */
  lemma {:induction false} ReachedLeft(weights: seq<BackendWeight>, i: nat)
    requires Distinct(weights) && Proper(weights, 100) && i <= |weights|
    ensures 100 * |Reached(weights, i)| == Max(LeftAt(weights, 100, i), 0) * Total(weights)
    decreases i
  {
    hide Reached, Total, Misses, LeftAt, Proper;
    if i == 0 {
      ReachedAll(weights);
      LeftFirst(weights, 100);
    } else {
      ReachedLeft(weights, i - 1);
      ReachedStep(weights, i - 1);
      MissesOnce(weights, i - 1);
      ProperAt(weights, 100, i - 1);
      SomeDraws(weights, 100);
      Passed(|Reached(weights, i - 1)|, |Reached(weights, i)|, Misses(weights, 100, {}), Misses(weights, 100, {weights[i - 1].backend}),
             LeftAt(weights, 100, i - 1), Max(LeftAt(weights, 100, i), 0), Total(weights));
    }
  }

  lemma {:induction false} LeftFirst(weights: seq<BackendWeight>, left: int)
    ensures LeftAt(weights, left, 0) == left
  {
  }

  lemma {:induction false} DecidedOnce(weights: seq<BackendWeight>, k: nat, i: nat)
    requires Distinct(weights) && Proper(weights, 100) && k < |weights| && i <= |weights|
    ensures |Decided(weights, {weights[k].backend}, i)| == if k < i then |Reached(weights, k)| - |Reached(weights, k + 1)| else 0
    decreases i
  {
    hide Reached, Decided, Proper;
    if i == 0 {
      NoneDecided(weights, {weights[k].backend});
    } else {
      DecidedOnce(weights, k, i - 1);
      DecidedStep(weights, {weights[k].backend}, i - 1);
    }
  }

  /** With different backends each rule gets its weight of a hundred, or what is left for it; and none of them the rest. */
  lemma {:induction false} ExactShares(weights: seq<BackendWeight>, cookies: map<string, string>, k: nat)
    requires Distinct(weights) && Proper(weights, 100) && k <= |weights|
    ensures 100 * |SentTo(weights, cookies, if k == |weights| then None else Some(weights[k].backend))|
         == Share(weights, k) * Total(weights)
  {
    hide Reached, Decided, SentTo, Total, LeftAt, Proper;
    ReachedLeft(weights, k);
    if k == |weights| {
      NoneIsReached(weights, cookies);
    } else {
      SentIsDecided(weights, cookies, weights[k].backend);
      DecidedOnce(weights, k, |weights|);
      ReachedLeft(weights, k + 1);
      ProperAt(weights, 100, k);
      LeftStep(weights, 100, k);
      var l, l', t := LeftAt(weights, 100, k), Max(LeftAt(weights, 100, k + 1), 0), Total(weights);
      assert l * t - l' * t == (l - l') * t;
    }
  }

  /** Different backends get exactly their weights of a hundred if and only if the weights do not exceed it. */
  lemma {:induction false} WeightsAreExact(weights: seq<BackendWeight>, cookies: map<string, string>)
    requires Distinct(weights) && Proper(weights, 100)
    ensures (forall k :: 0 <= k < |weights| ==>
               100 * |SentTo(weights, cookies, Some(weights[k].backend))| == weights[k].weight * Total(weights))
            <==> Sum(weights) <= 100
    ensures Sum(weights) <= 100 ==> 100 * |SentTo(weights, cookies, None)| == (100 - Sum(weights)) * Total(weights)
  {
    hide SentTo, Total, Proper, Sum, Distinct, SumIn;
    SumsAreExact(weights, cookies);
    DistinctOrderly(weights);
    forall k | 0 <= k < |weights|
      ensures ExactFor(weights, cookies, weights[k].backend) <==>
              100 * |SentTo(weights, cookies, Some(weights[k].backend))| == weights[k].weight * Total(weights)
    {
      SumInOne(weights, k);
    }
    forall name | forall k :: 0 <= k < |weights| ==> weights[k].backend != name ensures ExactFor(weights, cookies, name) {
      SumInNone(weights, {name});
      SentToNone(weights, cookies, name);
    }
  }

  lemma {:induction false} SentToNone(weights: seq<BackendWeight>, cookies: map<string, string>, name: string)
    requires forall k :: 0 <= k < |weights| ==> weights[k].backend != name
    ensures |SentTo(weights, cookies, Some(name))| == 0
  {
    SentIsDecided(weights, cookies, name);
    assert Decided(weights, {name}, |weights|) == {};
  }

  lemma {:induction false} DistinctOrderly(weights: seq<BackendWeight>)
    requires Distinct(weights)
    ensures Orderly(weights)
  {
    forall j: nat, k: nat ensures !Overtakes(weights, j, k) {
      if k < |weights| {
        assert IndexOf(weights, weights[k].backend) <= k;
      }
    }
    forall i: nat ensures !Repeats(weights, i) {
    }
  }

  lemma {:induction false} SumInOne(weights: seq<BackendWeight>, k: nat)
    requires Distinct(weights) && k < |weights|
    ensures SumIn(weights, {weights[k].backend}) == weights[k].weight
    decreases k
  {
    var rest := weights[1..];
    assert forall m :: 0 <= m < |rest| ==> rest[m] == weights[m + 1];
    if k == 0 {
      SumInNone(rest, {weights[0].backend});
    } else {
      assert weights[0].backend != weights[k].backend;
      SumInOne(rest, k - 1);
    }
  }
}
