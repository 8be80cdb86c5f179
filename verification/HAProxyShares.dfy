/**
  The share of the traffic that each backend gets: the outcomes of all draws are counted, a number below its range for
  each random line, and all of them anew for each rule.
*/
module HAProxyShares {
  import opened ActionGraph
  import opened HAProxyWeights

  // ------------------------------------------------------------------------
  // Counting boxes
  // ------------------------------------------------------------------------

  ghost function Interval(low: int, high: int): (r: set<int>)
    ensures forall x :: x in r <==> low <= x < high
    ensures |r| == if low < high then high - low else 0
    decreases high - low
  {
    if low < high then Interval(low, high - 1) + {high - 1} else {}
  }

  ghost function Prepended<T(!new)>(heads: set<T>, tails: set<seq<T>>): set<seq<T>> {
    set x, t | x in heads && t in tails :: [x] + t
  }

  lemma {:induction false} InPrepended<T(!new)>(heads: set<T>, tails: set<seq<T>>, s: seq<T>)
    ensures s in Prepended(heads, tails) <==> s != [] && s[0] in heads && s[1..] in tails
  {
    if s != [] {
      assert s == [s[0]] + s[1..];
    }
  }

  lemma {:induction false} OneHead<T(!new)>(x: T, tails: set<seq<T>>)
    ensures |Prepended({x}, tails)| == |tails|
    decreases |tails|
  {
    hide Prepended;
    var all := Prepended({x}, tails);
    if tails == {} {
      assert all == {} by {
        forall s ensures s !in all {
          InPrepended({x}, tails, s);
        }
      }
    } else {
      var t :| t in tails;
      var rest := tails - {t};
      OneHead(x, rest);
      forall s ensures s in all <==> s in Prepended({x}, rest) || s == [x] + t {
        InPrepended({x}, tails, s);
        InPrepended({x}, rest, s);
        if s != [] && s[0] == x {
          assert s == [x] + s[1..];
        }
      }
      InPrepended({x}, rest, [x] + t);
      assert all == Prepended({x}, rest) + {[x] + t};
    }
  }

  lemma {:induction false} PrependedSize<T(!new)>(heads: set<T>, tails: set<seq<T>>)
    ensures |Prepended(heads, tails)| == |heads| * |tails|
    decreases |heads|
  {
    hide Prepended;
    var all := Prepended(heads, tails);
    if heads == {} {
      assert all == {} by {
        forall s ensures s !in all {
          InPrepended(heads, tails, s);
        }
      }
    } else {
      var x :| x in heads;
      var rest := heads - {x};
      PrependedSize(rest, tails);
      OneHead(x, tails);
      var first, last := Prepended({x}, tails), Prepended(rest, tails);
      forall s ensures s in all <==> s in first || s in last
               ensures !(s in first && s in last) {
        InPrepended(heads, tails, s);
        InPrepended({x}, tails, s);
        InPrepended(rest, tails, s);
      }
      assert all == first + last && first !! last;
      Distribute(|rest|, |tails|);
    }
  }

  lemma {:induction false} Distribute(a: int, b: int)
    ensures (a + 1) * b == a * b + b
  {
  }

  /** All sequences that take each element from the set at its place. */
  ghost function Box<T(!new)>(choices: seq<set<T>>): set<seq<T>> {
    if choices == [] then {[]} else Prepended(choices[0], Box(choices[1..]))
  }

  lemma {:induction false} InBox<T(!new)>(choices: seq<set<T>>, s: seq<T>)
    ensures s in Box(choices) <==> |s| == |choices| && forall i :: 0 <= i < |s| ==> s[i] in choices[i]
    decreases |choices|
  {
    hide Prepended;
    if choices != [] {
      InPrepended(choices[0], Box(choices[1..]), s);
      if s != [] {
        InBox(choices[1..], s[1..]);
        assert forall i :: 0 < i < |s| ==> s[i] == s[1..][i - 1] && (i < |choices| ==> choices[i] == choices[1..][i - 1]);
      }
    }
  }

  lemma {:induction false} Cross(a: int, b: int, c: int, d: int, e: int, f: int)
    requires a * b == c * d
    ensures (e * a) * (f * b) == (e * c) * (f * d) == (f * c) * (e * d)
  {
    assert (e * a) * (f * b) == (e * f) * (a * b);
    assert (e * c) * (f * d) == (e * f) * (c * d);
    assert (f * c) * (e * d) == (e * f) * (c * d);
  }

  /** Another set at one place changes the number of sequences in proportion. */
  lemma {:induction false} BoxReplaced<T(!new)>(choices: seq<set<T>>, i: nat, other: set<T>)
    requires i < |choices|
    ensures |Box(choices[i := other])| * |choices[i]| == |Box(choices)| * |other|
    decreases i
  {
    hide Prepended;
    var now := choices[i := other];
    PrependedSize(choices[0], Box(choices[1..]));
    PrependedSize(now[0], Box(now[1..]));
    if i == 0 {
      assert now[1..] == choices[1..];
      Turned(|other|, |Box(choices[1..])|, |choices[0]|);
    } else {
      assert now[1..] == choices[1..][i - 1 := other];
      BoxReplaced(choices[1..], i - 1, other);
      Scaled(|choices[0]|, |Box(now[1..])|, |choices[i]|, |Box(choices[1..])|, |other|);
    }
  }

  lemma {:induction false} Turned(a: int, b: int, c: int)
    ensures (a * b) * c == (c * b) * a
  {
  }

  lemma {:induction false} Scaled(a: int, b: int, c: int, d: int, e: int)
    requires b * c == d * e
    ensures (a * b) * c == (a * d) * e
  {
    assert (a * b) * c == a * (b * c);
    assert (a * d) * e == a * (d * e);
  }

  lemma {:induction false} BoxHolds<T(!new)>(choices: seq<set<T>>)
    requires forall i :: 0 <= i < |choices| ==> choices[i] != {}
    ensures |Box(choices)| > 0
    decreases |choices|
  {
    if choices != [] {
      BoxHolds(choices[1..]);
      PrependedSize(choices[0], Box(choices[1..]));
      Positive(|choices[0]|, |Box(choices[1..])|);
    } else {
      assert Box(choices) == {[]};
    }
  }

  lemma {:induction false} Positive(a: int, b: int)
    requires a > 0 && b > 0
    ensures a * b > 0
  {
  }

  // ------------------------------------------------------------------------
  // The draws for one rule
  // ------------------------------------------------------------------------

  ghost function Intervals(ranges: seq<int>): seq<set<int>> {
    if ranges == [] then [] else [Interval(0, ranges[0])] + Intervals(ranges[1..])
  }

  /** Everything that drawing one number below each of the ranges can give. */
  ghost function Outcomes(ranges: seq<int>): set<seq<int>> {
    Box(Intervals(ranges))
  }

  /** The numbers with which no line for these backends fires. */
  ghost function Missing(weights: seq<BackendWeight>, left: int, names: set<string>): seq<set<int>>
    decreases |weights|
  {
    if weights == [] then []
    else
      [Interval(if weights[0].backend in names then weights[0].weight else 0, left)]
      + Missing(weights[1..], left - weights[0].weight, names)
  }

  ghost function Misses(weights: seq<BackendWeight>, left: int, names: set<string>): nat {
    |Box(Missing(weights, left, names))|
  }

  lemma {:induction false} AllMiss(weights: seq<BackendWeight>, left: int)
    ensures Missing(weights, left, {}) == Intervals(Ranges(Rules(weights, left)))
    decreases |weights|
  {
    if weights != [] {
      var rules, rest := Rules(weights, left), Rules(weights[1..], left - weights[0].weight);
      assert rules[1..][1..] == rest;
      assert Ranges(rules[1..]) == Ranges(rest);
      assert Ranges(rules) == [left] + Ranges(rest) && ([left] + Ranges(rest))[1..] == Ranges(rest);
      AllMiss(weights[1..], left - weights[0].weight);
    }
  }

  /** What the first k rules leave of `left`. */
  function LeftAt(weights: seq<BackendWeight>, left: int, k: nat): int
    requires k <= |weights|
    decreases k
  {
    if k == 0 then left else LeftAt(weights[1..], left - weights[0].weight, k - 1)
  }

  /** No weight is negative, and something is left for each rule. */
  predicate Proper(weights: seq<BackendWeight>, left: int)
    decreases |weights|
  {
    weights != [] ==> weights[0].weight >= 0 && left > 0 && Proper(weights[1..], left - weights[0].weight)
  }

  lemma {:induction false} ProperAt(weights: seq<BackendWeight>, left: int, k: nat)
    requires Proper(weights, left) && k < |weights|
    ensures weights[k].weight >= 0 && LeftAt(weights, left, k) > 0
    decreases k
  {
    if k > 0 {
      ProperAt(weights[1..], left - weights[0].weight, k - 1);
    }
  }

  lemma {:induction false} MissingLong(weights: seq<BackendWeight>, left: int, names: set<string>)
    ensures |Missing(weights, left, names)| == |weights|
    decreases |weights|
  {
    if weights != [] {
      MissingLong(weights[1..], left - weights[0].weight, names);
    }
  }

  lemma {:induction false} MissingAt(weights: seq<BackendWeight>, left: int, names: set<string>, k: nat)
    requires k < |weights|
    ensures |Missing(weights, left, names)| == |weights|
    ensures Missing(weights, left, names)[k]
         == Interval(if weights[k].backend in names then weights[k].weight else 0, LeftAt(weights, left, k))
    decreases k
  {
    hide Interval;
    MissingLong(weights, left, names);
    if k > 0 {
      var rest, less := weights[1..], left - weights[0].weight;
      MissingAt(rest, less, names, k - 1);
      assert Missing(weights, left, names)[k] == Missing(rest, less, names)[k - 1];
      assert LeftAt(weights, left, k) == LeftAt(rest, less, k - 1);
    }
  }

  /** All draws for one rule: a number for each random line of the emitted rules, below its range. */
  ghost function Draws(weights: seq<BackendWeight>): set<seq<int>> {
    Outcomes(Ranges(Rules(weights, 100)))
  }

  lemma {:induction false} DrawsAre(weights: seq<BackendWeight>)
    ensures Draws(weights) == Box(Missing(weights, 100, {}))
  {
    AllMiss(weights, 100);
  }

  lemma {:induction false} DrawsLong(weights: seq<BackendWeight>, draws: seq<int>)
    requires draws in Draws(weights)
    ensures |draws| == |weights|
  {
    DrawsAre(weights);
    InBox(Missing(weights, 100, {}), draws);
    MissingLong(weights, 100, {});
  }

  lemma {:induction false} MissesFire(weights: seq<BackendWeight>, name: string, draws: seq<int>)
    requires Proper(weights, 100)
    ensures draws in Box(Missing(weights, 100, {name})) <==>
            draws in Draws(weights) && |draws| == |weights| && !Fires(weights, draws, name)
  {
    hide Box, Interval, Draws;
    DrawsAre(weights);
    InBox(Missing(weights, 100, {}), draws);
    InBox(Missing(weights, 100, {name}), draws);
    MissingLong(weights, 100, {});
    MissingLong(weights, 100, {name});
    if |draws| == |weights| {
      forall k | 0 <= k < |draws|
        ensures draws[k] in Missing(weights, 100, {name})[k] <==>
                draws[k] in Missing(weights, 100, {})[k] && !(weights[k].backend == name && draws[k] < weights[k].weight)
      {
        MissingAt(weights, 100, {}, k);
        MissingAt(weights, 100, {name}, k);
        ProperAt(weights, 100, k);
        InInterval(0, weights[k].weight, LeftAt(weights, 100, k), draws[k]);
      }
    }
  }

  lemma {:induction false} InInterval(low: int, middle: int, high: int, x: int)
    requires low <= middle
    ensures x in Interval(middle, high) <==> x in Interval(low, high) && x >= middle
  {
  }

  /** There are draws at all. */
  lemma {:induction false} SomeDraws(weights: seq<BackendWeight>, left: int)
    requires Proper(weights, left)
    ensures Misses(weights, left, {}) > 0
    decreases |weights|
  {
    if weights == [] {
      NoLines(left, {});
    } else {
      SomeDraws(weights[1..], left - weights[0].weight);
      MissesStep(weights, left, {});
      Positive(left, Misses(weights[1..], left - weights[0].weight, {}));
    }
  }

  lemma {:induction false} NoLines(left: int, names: set<string>)
    ensures Misses([], left, names) == 1
  {
    assert Box(Missing([], left, names)) == {[]};
  }

  lemma {:induction false} MissesStep(weights: seq<BackendWeight>, left: int, names: set<string>)
    requires weights != []
    ensures var low := if weights[0].backend in names then weights[0].weight else 0;
            Misses(weights, left, names)
            == (if low < left then left - low else 0) * Misses(weights[1..], left - weights[0].weight, names)
  {
    var low := if weights[0].backend in names then weights[0].weight else 0;
    var all, rest := Missing(weights, left, names), Missing(weights[1..], left - weights[0].weight, names);
    assert all[0] == Interval(low, left) && all[1..] == rest;
    PrependedSize(Interval(low, left), Box(rest));
  }

  // ------------------------------------------------------------------------
  // What is missed, against what is asked for
  // ------------------------------------------------------------------------

  /** The sum of the weights of these backends. */
  function SumIn(weights: seq<BackendWeight>, names: set<string>): int
    decreases |weights|
  {
    if weights == [] then 0
    else (if weights[0].backend in names then weights[0].weight else 0) + SumIn(weights[1..], names)
  }

  function Sum(weights: seq<BackendWeight>): int
    decreases |weights|
  {
    if weights == [] then 0 else weights[0].weight + Sum(weights[1..])
  }

  lemma {:induction false} SumsFit(weights: seq<BackendWeight>, left: int, names: set<string>)
    requires Proper(weights, left)
    ensures 0 <= SumIn(weights, names) <= Sum(weights)
    decreases |weights|
  {
    if weights != [] {
      SumsFit(weights[1..], left - weights[0].weight, names);
    }
  }

  /** Some weight of these backends comes after a weight of others; or after `outside`, such a weight before the list. */
  predicate Behind(weights: seq<BackendWeight>, names: set<string>, outside: bool)
    decreases |weights|
  {
    weights != [] &&
    if weights[0].weight <= 0 then Behind(weights[1..], names, outside)
    else if weights[0].backend in names then outside || Behind(weights[1..], names, outside)
    else Behind(weights[1..], names, true)
  }

  lemma {:induction false} BoundIn(x: int, left: int, w: int, s: int, m: int, d: int)
    requires x >= left > 0 && w >= 0 && s >= 0 && left >= w + s && m >= 0 && d > 0
    requires (x - w) * m <= (x - w - s) * d
    ensures x * ((left - w) * m) <= (x - w - s) * (left * d)
    ensures x * ((left - w) * m) < (x - w - s) * (left * d) <==> (w > 0 && x > left) || (x - w) * m < (x - w - s) * d
  {
    var gap := (x - w - s) * d - (x - w) * m;
    var over := w * (x - left);
    GapIs(x, left, w, x - w - s, m, d);
    ProductSign(w, x - left);
    ProductSign(over, m);
    ProductSign(left, gap);
    if m == 0 {
      ProductSign(x - w - s, d);
      assert (x - w) * m == 0;
    }
  }

  lemma {:induction false} GapIs(x: int, left: int, w: int, y: int, m: int, d: int)
    ensures y * (left * d) - x * ((left - w) * m) == left * (y * d - (x - w) * m) + (w * (x - left)) * m
  {
    assert y * (left * d) == left * (y * d);
    assert x * ((left - w) * m) == (x * (left - w)) * m;
    assert left * ((x - w) * m) == (left * (x - w)) * m;
    assert x * (left - w) == left * (x - w) - w * (x - left);
    Minus(left * (x - w), w * (x - left), m);
    assert left * (y * d - (x - w) * m) == left * (y * d) - left * ((x - w) * m);
  }

  lemma {:induction false} Minus(a: int, b: int, c: int)
    ensures (a - b) * c == a * c - b * c
  {
  }

  lemma {:induction false} ProductSign(a: int, b: int)
    requires a >= 0 && b >= 0
    ensures a * b >= 0 && (a * b > 0 <==> a > 0 && b > 0)
  {
  }

  lemma {:induction false} BoundOut(x: int, left: int, s: int, m: int, d: int)
    requires left > 0 && x * m <= (x - s) * d
    ensures x * (left * m) <= (x - s) * (left * d)
    ensures x * (left * m) < (x - s) * (left * d) <==> x * m < (x - s) * d
  {
    assert (x - s) * (left * d) - x * (left * m) == left * ((x - s) * d - x * m);
    ProductSign(left, (x - s) * d - x * m);
  }

  /**
    Of `x`, of which others took the part that is not left, these backends are missed for what their weights leave at
    most; and for less, exactly if one of their weights comes after a weight of others.
  */
  lemma {:induction false} MissesBound(weights: seq<BackendWeight>, left: int, x: int, names: set<string>)
    requires Proper(weights, left) && Sum(weights) <= left <= x
    ensures x * Misses(weights, left, names) <= (x - SumIn(weights, names)) * Misses(weights, left, {})
    ensures x * Misses(weights, left, names) < (x - SumIn(weights, names)) * Misses(weights, left, {}) <==>
            Behind(weights, names, x > left)
    decreases |weights|
  {
    hide Misses;
    if weights == [] {
      NoLines(left, names);
      NoLines(left, {});
    } else {
      var w, rest := weights[0].weight, weights[1..];
      MissesStep(weights, left, names);
      MissesStep(weights, left, {});
      SumsFit(rest, left - w, names);
      SomeDraws(rest, left - w);
      var m, d, s := Misses(rest, left - w, names), Misses(rest, left - w, {}), SumIn(rest, names);
      if weights[0].backend in names {
        MissesBound(rest, left - w, x - w, names);
        BoundIn(x, left, w, s, m, d);
      } else {
        MissesBound(rest, left - w, x, names);
        BoundOut(x, left, s, m, d);
      }
    }
  }

  /** Missing one more backend is independent of missing the others. */
  lemma {:induction false} MissesTogether(weights: seq<BackendWeight>, left: int, names: set<string>, name: string)
    requires name !in names
    ensures Misses(weights, left, names + {name}) * Misses(weights, left, {})
         == Misses(weights, left, names) * Misses(weights, left, {name})
    decreases |weights|
  {
    hide Misses;
    if weights == [] {
      NoLines(left, names + {name});
      NoLines(left, names);
      NoLines(left, {name});
      NoLines(left, {});
    } else {
      var rest, less := weights[1..], left - weights[0].weight;
      MissesStep(weights, left, names + {name});
      MissesStep(weights, left, names);
      MissesStep(weights, left, {name});
      MissesStep(weights, left, {});
      MissesTogether(rest, less, names, name);
      var a, b := Misses(rest, less, names + {name}), Misses(rest, less, {});
      var c, d := Misses(rest, less, names), Misses(rest, less, {name});
      var whole := if 0 < left then left else 0;
      var part := if weights[0].weight < left then left - weights[0].weight else 0;
      Cross(a, b, c, d, whole, whole);
      Cross(a, b, c, d, part, whole);
    }
  }

  // ------------------------------------------------------------------------
  // The draws for all rules
  // ------------------------------------------------------------------------

  /** Draws of their own for every rule. */
  ghost function Rounds(weights: seq<BackendWeight>): set<seq<seq<int>>> {
    Box(Rest(weights, 0))
  }

  /** Draws with which the rules before the i-th all miss, and any for the others. */
  ghost function Rest(weights: seq<BackendWeight>, i: nat): (r: seq<set<seq<int>>>)
    ensures |r| == |weights|
  {
    seq(|weights|, m requires 0 <= m < |weights| => if m < i then Box(Missing(weights, 100, {weights[m].backend})) else Draws(weights))
  }

  ghost function Reached(weights: seq<BackendWeight>, i: nat): set<seq<seq<int>>> {
    Box(Rest(weights, i))
  }

  ghost function Total(weights: seq<BackendWeight>): nat {
    |Rounds(weights)|
  }

  lemma {:induction false} RoundsDrawn(weights: seq<BackendWeight>, rounds: seq<seq<int>>)
    requires rounds in Rounds(weights)
    ensures Drawn(weights, rounds)
  {
    hide Box, Draws;
    InBox(Rest(weights, 0), rounds);
    forall k | 0 <= k < |rounds| ensures |rounds[k]| == |weights| {
      DrawsLong(weights, rounds[k]);
    }
  }

  /** A rule is reached if none before it fires. */
  lemma {:induction false} ReachedIs(weights: seq<BackendWeight>, i: nat, rounds: seq<seq<int>>)
    requires Proper(weights, 100) && i <= |weights| && rounds in Rounds(weights) && Drawn(weights, rounds)
    ensures rounds in Reached(weights, i) <==> i <= Pick(weights, rounds, 0)
  {
    hide Box, Draws, Missing, Fires, Proper;
    InBox(Rest(weights, 0), rounds);
    InBox(Rest(weights, i), rounds);
    forall m | 0 <= m < |weights|
      ensures rounds[m] in Rest(weights, i)[m] <==> !(m < i && Fires(weights, rounds[m], weights[m].backend))
    {
      assert rounds[m] in Rest(weights, 0)[m];
      MissesFire(weights, weights[m].backend, rounds[m]);
    }
    var k := Pick(weights, rounds, 0);
    if k < i {
      assert rounds[k] !in Rest(weights, i)[k];
    }
  }

  lemma {:induction false} ReachedDrawn(weights: seq<BackendWeight>, i: nat)
    requires Proper(weights, 100)
    ensures Reached(weights, i) <= Rounds(weights)
  {
    hide Box, Draws, Missing, Proper;
    forall rounds | rounds in Reached(weights, i) ensures rounds in Rounds(weights) {
      InBox(Rest(weights, i), rounds);
      InBox(Rest(weights, 0), rounds);
      forall m | 0 <= m < |weights| ensures rounds[m] in Rest(weights, 0)[m] {
        assert rounds[m] in Rest(weights, i)[m];
        MissesFire(weights, weights[m].backend, rounds[m]);
      }
    }
  }

  lemma {:induction false} SomeRounds(weights: seq<BackendWeight>)
    requires Proper(weights, 100)
    ensures Total(weights) > 0
  {
    hide Box, Missing, Draws;
    DrawsAre(weights);
    SomeDraws(weights, 100);
    assert forall m :: 0 <= m < |weights| ==> Rest(weights, 0)[m] != {};
    BoxHolds(Rest(weights, 0));
  }

  /** Each rule lets pass, of what reaches it, the fraction of the draws with which its backend is missed. */
  lemma {:induction false} ReachedStep(weights: seq<BackendWeight>, i: nat)
    requires i < |weights|
    ensures |Reached(weights, i + 1)| * Misses(weights, 100, {})
         == |Reached(weights, i)| * Misses(weights, 100, {weights[i].backend})
  {
    hide Box, Missing, Draws;
    DrawsAre(weights);
    var missed := Box(Missing(weights, 100, {weights[i].backend}));
    assert Rest(weights, i + 1) == Rest(weights, i)[i := missed];
    BoxReplaced(Rest(weights, i), i, missed);
  }

  /** The draws for which the emitted lines send a request to one of these backends, or to none of all. */
  ghost function SentTo(weights: seq<BackendWeight>, cookies: map<string, string>, to: Option<string>): set<seq<seq<int>>> {
    set rounds | rounds in Rounds(weights) && Chosen(Rules(weights, 100), cookies, rounds) == to
  }

  /** The draws with which a rule before the i-th decides, for one of these backends. */
  ghost function Decided(weights: seq<BackendWeight>, names: set<string>, i: nat): set<seq<seq<int>>>
    requires i <= |weights|
  {
    set rounds | rounds in Rounds(weights) && Drawn(weights, rounds) && Pick(weights, rounds, 0) < i
                 && weights[Pick(weights, rounds, 0)].backend in names
  }

  lemma {:induction false} SentIsDecided(weights: seq<BackendWeight>, cookies: map<string, string>, name: string)
    ensures SentTo(weights, cookies, Some(name)) == Decided(weights, {name}, |weights|)
  {
    hide Rounds, Rules, Chosen, Drawn;
    forall rounds | rounds in Rounds(weights)
      ensures rounds in SentTo(weights, cookies, Some(name)) <==> rounds in Decided(weights, {name}, |weights|)
    {
      RoundsDrawn(weights, rounds);
      ChosenIsPick(weights, 100, cookies, rounds);
    }
  }

  lemma {:induction false} NoneIsReached(weights: seq<BackendWeight>, cookies: map<string, string>)
    requires Proper(weights, 100)
    ensures SentTo(weights, cookies, None) == Reached(weights, |weights|)
  {
    hide Rounds, Reached, Rules, Chosen, Drawn, Proper;
    ReachedDrawn(weights, |weights|);
    forall rounds | rounds in Rounds(weights)
      ensures rounds in SentTo(weights, cookies, None) <==> rounds in Reached(weights, |weights|)
    {
      RoundsDrawn(weights, rounds);
      ReachedIs(weights, |weights|, rounds);
      ChosenIsPick(weights, 100, cookies, rounds);
    }
  }

  lemma {:induction false} SizeLess<T(!new)>(a: set<T>, b: set<T>)
    requires b <= a
    ensures |a - b| == |a| - |b|
  {
    assert a == (a - b) + b;
  }

  lemma {:induction false} SizeAtMost<T(!new)>(a: set<T>, b: set<T>)
    requires b <= a
    ensures |b| <= |a|
  {
    SizeLess(a, b);
  }

  /** The i-th rule decides for what reaches it and not the next. */
  lemma {:induction false} DecidedStep(weights: seq<BackendWeight>, names: set<string>, i: nat)
    requires Proper(weights, 100) && i < |weights|
    ensures |Reached(weights, i + 1)| <= |Reached(weights, i)|
    ensures |Decided(weights, names, i + 1)| == |Decided(weights, names, i)|
            + if weights[i].backend in names then |Reached(weights, i)| - |Reached(weights, i + 1)| else 0
  {
    hide Rounds, Reached, Drawn, Proper;
    var before, now := Decided(weights, names, i), Decided(weights, names, i + 1);
    var here, next := Reached(weights, i), Reached(weights, i + 1);
    ReachedDrawn(weights, i);
    ReachedDrawn(weights, i + 1);
    forall rounds | rounds in Rounds(weights)
      ensures rounds in next ==> rounds in here
      ensures rounds in now <==> rounds in before || (weights[i].backend in names && rounds in here && rounds !in next)
      ensures rounds in before ==> rounds !in here
    {
      RoundsDrawn(weights, rounds);
      ReachedIs(weights, i, rounds);
      ReachedIs(weights, i + 1, rounds);
    }
    SizeLess(here, next);
    if weights[i].backend in names {
      assert now == before + (here - next) && before !! here - next;
    } else {
      assert now == before;
    }
  }
}
