/**
  `toFixed` as the shim computes it, against section 15.7.4.5 of ECMA-262 edition 5.1.
*/
module ToFixed {
  import opened Arithmetic
  import opened Decimals
  import opened BigNumbers

  // ------------------------------------------------------------------------
  // Powers of two as real numbers
  // ------------------------------------------------------------------------

  function Power2(k: int): (p: real)
    ensures p > 0.0
  {
    Doubled(k)
  }

  function Doubled(k: int): (p: real)
    ensures p > 0.0
    decreases if k < 0 then -k else k
  {
    if k == 0 then 1.0 else if k > 0 then 2.0 * Doubled(k - 1) else Doubled(k + 1) / 2.0
  }

  lemma {:induction false} Power2Next(k: int)
    ensures Power2(k + 1) == 2.0 * Power2(k)
  {
  }

  lemma {:induction false} Power2Add(j: nat, k: int)
    ensures Power2(j + k) == Power2(j) * Power2(k)
    decreases j
  {
    hide Power2;
    if j > 0 {
      Power2Add(j - 1, k);
      Power2Next(j - 1 + k);
      Power2Next(j - 1);
      assert (j - 1) + 1 == j && (j - 1 + k) + 1 == j + k;
      RealMulAssoc(2.0, Power2(j - 1), Power2(k));
    } else {
      Power2AtZero();
    }
  }

  lemma {:induction false} Power2AtZero()
    ensures Power2(0) == 1.0
  {
  }

  lemma {:induction false} Power2Inverse(k: int)
    requires k >= 0
    ensures Power2(k) * Power2(-k) == 1.0
  {
    Power2Add(k, -k);
  }

  lemma {:induction false} RealMulAssoc(a: real, b: real, c: real)
    ensures a * (b * c) == (a * b) * c
  {
  }

  lemma {:induction false} Power2Int(k: nat)
    ensures Power2(k) == Pow(2, k) as real
    decreases k
  {
    if k > 0 {
      Power2Int(k - 1);
    }
  }

  lemma {:induction false} Power2Less(j: int, k: int)
    requires Power2(j) < Power2(k)
    ensures j < k
  {
    if k <= j {
      Power2Monotone(k, j);
    }
  }

  lemma {:induction false} Power2Monotone(j: int, k: int)
    requires j <= k
    ensures Power2(j) <= Power2(k)
    decreases k - j
  {
    if j < k {
      Power2Monotone(j, k - 1);
      Power2Next(k - 1);
    }
  }

  // ------------------------------------------------------------------------
  // The helpers
  // ------------------------------------------------------------------------

  /** `pow(x, n, acc)` */
  function PowAcc(x: nat, n: nat, acc: nat): nat
    decreases n
  {
    if n == 0 then acc else if n % 2 == 1 then PowAcc(x, n - 1, acc * x) else PowAcc(x * x, n / 2, acc)
  }

  lemma {:induction false} PowSquare(x: nat, n: nat)
    ensures Pow(x * x, n) == Pow(x, n + n)
    decreases n
  {
    if n > 0 {
      PowSquare(x, n - 1);
      MulAssoc(x, x, Pow(x, n + n - 2));
      assert Pow(x, n + n) == x * Pow(x, n + n - 1);
    }
  }

  /** The helper computes the power, times what it starts with. */
  lemma {:induction false} PowAccIs(x: nat, n: nat, acc: nat)
    ensures PowAcc(x, n, acc) == acc * Pow(x, n)
    decreases n
  {
    if n == 0 {
    } else if n % 2 == 1 {
      PowAccIs(x, n - 1, acc * x);
      MulAssoc(acc, x, Pow(x, n - 1));
    } else {
      PowAccIs(x * x, n / 2, acc);
      PowSquare(x, n / 2);
    }
  }

  lemma {:induction false} Power2By12(k: int)
    ensures Power2(k + 12) == 4096.0 * Power2(k)
  {
    Power2Next(k + 11); Power2Next(k + 10); Power2Next(k + 9); Power2Next(k + 8);
    Power2Next(k + 7); Power2Next(k + 6); Power2Next(k + 5); Power2Next(k + 4);
    Power2Next(k + 3); Power2Next(k + 2); Power2Next(k + 1); Power2Next(k);
  }

  /** The whole part of the logarithm to base 2, or 0 for numbers below 1. */
  predicate LogOf(y: real, n: nat) {
    if y < 1.0 then n == 0 else Power2(n) <= y < Power2(n + 1)
  }

  /** `log` */
  method Log(x: real) returns (n: nat)
    requires 0.0 <= x
    ensures LogOf(x, n)
  {
    hide Power2;
    n := 0;
    var x2 := x;
    assert x == x2 * Power2(0) by { Power2Zero(); }
    while x2 >= 4096.0
      invariant x < 1.0 ==> n == 0 && x2 == x
      invariant x >= 1.0 ==> x2 >= 1.0
      invariant 0.0 <= x2 && x == x2 * Power2(n)
      decreases x2
    {
      Power2By12(n);
      LogStep(x, x2, 4096.0, n, 12);
      n := n + 12;
      x2 := x2 / 4096.0;
    }
    while x2 >= 2.0
      invariant x < 1.0 ==> n == 0 && x2 == x
      invariant x >= 1.0 ==> x2 >= 1.0
      invariant 0.0 <= x2 && x == x2 * Power2(n)
      decreases x2
    {
      Power2Next(n);
      LogStep(x, x2, 2.0, n, 1);
      n := n + 1;
      x2 := x2 / 2.0;
    }
    if x >= 1.0 {
      LogEnds(x, x2, n);
    }
  }

  lemma {:induction false} Power2Positive(k: int)
    ensures Power2(k) > 0.0
  {
  }

  lemma {:induction false} Power2Zero()
    ensures Power2(0) == 1.0
  {
  }

  lemma {:induction false} LogStep(x: real, x2: real, d: real, n: int, k: int)
    requires d > 0.0 && x == x2 * Power2(n) && Power2(n + k) == d * Power2(n)
    ensures x == (x2 / d) * Power2(n + k)
  {
    RealDiv(x2, d);
    RealMulAssoc(x2 / d, d, Power2(n));
  }

  lemma {:induction false} RealDiv(a: real, d: real)
    requires d != 0.0
    ensures (a / d) * d == a
  {
  }

  lemma {:induction false} LogEnds(x: real, x2: real, n: int)
    requires 1.0 <= x2 < 2.0 && x == x2 * Power2(n)
    ensures Power2(n) <= x < Power2(n + 1)
  {
    Power2Next(n);
    AtLeastOnce(x2, Power2(n));
    LessThanTwice(x2, Power2(n));
  }

  lemma {:induction false} AtLeastOnce(x: real, p: real)
    requires 1.0 <= x && 0.0 < p
    ensures p <= x * p
  {
    RealMulLe(1.0, x, p);
  }

  lemma {:induction false} LessThanTwice(x: real, p: real)
    requires x < 2.0 && 0.0 < p
    ensures x * p < 2.0 * p
  {
    RealMulLess(x, 2.0, p);
  }

  lemma {:induction false} RealMulLe(a: real, b: real, c: real)
    requires a <= b && 0.0 <= c
    ensures a * c <= b * c
  {
  }

  lemma {:induction false} RealMulLess(a: real, b: real, c: real)
    requires a < b && 0.0 < c
    ensures a * c < b * c
  {
  }

  // ------------------------------------------------------------------------
  // Rounding
  // ------------------------------------------------------------------------

  function Abs(a: real): real {
    if a < 0.0 then -a else a
  }

  /** A number in units of its last decimal. */
  function InUnits(x: real, f: nat): real {
    x * Pow(10, f) as real
  }

  /** Rounding to the nearest integer, and halves upwards. */
  predicate RoundsTo(y: real, n: int) {
    n as real - 0.5 <= y < n as real + 0.5
  }

  /**
    The number that step 8 of the specification asks for: no integer divided by the power of
    ten is closer to the number, and one that is as close is not larger.
  */
  lemma {:induction false} RoundsToNearest(x: real, t: real, n: int, k: int)
    requires t > 0.0 && RoundsTo(x * t, n)
    ensures Abs(n as real / t - x) <= Abs(k as real / t - x)
    ensures Abs(n as real / t - x) == Abs(k as real / t - x) ==> k <= n
  {
    NearestInteger(x * t, n, k);
    Apart(x, t, n as real);
    Apart(x, t, k as real);
    if Abs(n as real - x * t) < Abs(k as real - x * t) {
      QuotientLess(Abs(n as real - x * t), Abs(k as real - x * t), t);
    }
  }

  lemma {:induction false} NearestInteger(y: real, n: int, k: int)
    requires RoundsTo(y, n)
    ensures Abs(n as real - y) <= Abs(k as real - y)
    ensures Abs(n as real - y) == Abs(k as real - y) ==> k <= n
  {
  }

  lemma {:induction false} Apart(x: real, t: real, a: real)
    requires t > 0.0
    ensures Abs(a / t - x) == Abs(a - x * t) / t
  {
    Difference(x, t, a);
    if a - x * t < 0.0 {
      QuotientLess(a - x * t, 0.0, t);
    } else {
      QuotientNotLess(a - x * t, t);
    }
  }

  lemma {:induction false} Difference(x: real, t: real, a: real)
    requires t > 0.0
    ensures a / t - x == (a - x * t) / t && -(a - x * t) / t == -((a - x * t) / t)
  {
    assert (x * t) / t == x;
    assert a / t - (x * t) / t == (a - x * t) / t;
  }

  lemma {:induction false} QuotientLess(a: real, b: real, t: real)
    requires a < b && t > 0.0
    ensures a / t < b / t
  {
    var p, q := a / t, b / t;
    RealDiv(a, t);
    RealDiv(b, t);
    if p >= q {
      RealMulLe(q, p, t);
    }
  }

  lemma {:induction false} QuotientNotLess(a: real, t: real)
    requires a >= 0.0 && t > 0.0
    ensures a / t >= 0.0
  {
  }

  /** Halving with one added first rounds to the nearest, for what is left after dividing by `h`. */
  lemma {:induction false} HalfUp(a: nat, h: nat)
    requires h > 0
    ensures var n := (a / h + 1) / 2;
            2 * h * n <= a + h < 2 * h * n + 2 * h
  {
    var q, n := a / h, (a / h + 1) / 2;
    DivMod(a, h);
    assert 2 * n <= q + 1 <= 2 * n + 1;
    MulLe(2 * n, q + 1, h);
    MulLe(q + 2, 2 * n + 2, h);
    MulAdd(h, q, 1);
    MulAdd(h, q, 2);
    MulAdd(h, 2 * n, 2);
    MulSwap(2, h, n);
    assert h * (2 * n) == 2 * h * n;
  }

  lemma {:induction false} HalfUpRounds(y: real, d: real, a: real, n: real)
    requires d > 0.0 && y * d == a && n * d <= a + d / 2.0 < n * d + d
    ensures n - 0.5 <= y
    ensures y < n + 0.5
  {
    assert (n - 0.5) * d == n * d - d / 2.0;
    assert (n + 0.5) * d == n * d + d / 2.0;
    if y < n - 0.5 {
      RealMulLess(y, n - 0.5, d);
    } else if y >= n + 0.5 {
      RealMulLe(n + 0.5, y, d);
    }
  }

  // ------------------------------------------------------------------------
  // Layout
  // ------------------------------------------------------------------------

  /** Step 9 of the specification: the digits of the integer with the point put in. */
  function Layout(m: string, f: nat): string {
    if f == 0 then m
    else
      var filled := Filled(m, f);
      filled[..|filled| - f] + "." + filled[|filled| - f..]
  }

  /** What a string with `f` decimals denotes, in units of the last one. */
  function Units(s: string, f: nat): nat
    requires f > 0 ==> |s| > f
  {
    if f == 0 then Parse(s) else Parse(s[..|s| - f - 1]) * Pow(10, f) + Parse(s[|s| - f..])
  }

  predicate Digits(s: string) {
    forall i | 0 <= i < |s| :: IsDigit(s[i])
  }

  /** `s` has a whole part without useless zeros, a point and exactly `f` decimals, or no point if `f` is 0. */
  predicate Fixed(s: string, f: nat) {
    var k := if f == 0 then |s| else |s| - f - 1;
    && 0 < k && Digits(s[..k]) && (k > 1 ==> s[0] != '0')
    && (f > 0 ==> s[k] == '.' && Digits(s[k + 1..]))
  }

  /** The digits with zeros in front, if there are not enough for a whole part. */
  function Filled(m: string, f: nat): string {
    if |m| <= f then Zeros(f + 1 - |m|) + m else m
  }

  lemma {:induction false} DigitsJoin(a: string, b: string)
    requires Digits(a) && Digits(b)
    ensures Digits(a + b)
  {
  }

  lemma {:induction false} FilledDenotes(n: nat, f: nat)
    ensures |Filled(Decimal(n), f)| > f && Digits(Filled(Decimal(n), f)) && Parse(Filled(Decimal(n), f)) == n
    ensures |Filled(Decimal(n), f)| > f + 1 ==> Filled(Decimal(n), f)[0] != '0'
  {
    assert |Decimal(0)| == 1;
    hide Parse, Decimal, Zeros;
    var m := Decimal(n);
    ParseDecimal(n);
    if |m| <= f {
      var zeros := Zeros(f + 1 - |m|);
      ParseJoin(zeros, m);
      ParseZeros(f + 1 - |m|);
      DigitsJoin(zeros, m);
    }
  }

  /** The whole part and the decimals that the layout makes. */
  lemma {:induction false} LayoutParts(n: nat, f: nat) returns (a: string, b: string)
    requires f > 0
    ensures Layout(Decimal(n), f) == a + "." + b && |b| == f && 0 < |a|
    ensures Digits(a) && Digits(b) && (|a| > 1 ==> a[0] != '0')
    ensures Parse(a) * Pow(10, f) + Parse(b) == n
  {
    hide Decimal, Parse, Pow;
    FilledDenotes(n, f);
    var m := Filled(Decimal(n), f);
    a, b := m[..|m| - f], m[|m| - f..];
    assert m == a + b;
    ParseJoin(a, b);
  }

  /** The layout is a fixed-point numeral with `f` decimals that denotes n / 10^f. */
  lemma {:induction false} LayoutDenotes(n: nat, f: nat)
    ensures Fixed(Layout(Decimal(n), f), f) && Units(Layout(Decimal(n), f), f) == n
  {
    if f == 0 {
      ParseDecimal(n);
      assert Decimal(n)[..|Decimal(n)|] == Decimal(n);
      NoUselessZero(n);
    } else {
      hide Decimal, Layout;
      var a, b := LayoutParts(n, f);
      var s := a + "." + b;
      assert s[..|a|] == a && s[|a| + 1..] == b && s[|a|] == '.';
    }
  }

  lemma {:induction false} NoUselessZero(n: nat)
    ensures |Decimal(n)| > 1 ==> Decimal(n)[0] != '0'
  {
  }

  /** The last lines of the shim. */
  function WithPoint(s: string, m: string, f: nat): (r: string)
    requires 0 < |m| && f <= 20
  {
    if f > 0 then
      if |m| <= f then s + "0.0000000000000000000"[0..f - |m| + 2] + m
      else s + m[0..|m| - f] + "." + m[|m| - f..]
    else s + m
  }

  lemma {:induction false} ShortLayout(m: string, f: nat)
    requires 0 < |m| <= f <= 20
    ensures Layout(m, f) == "0." + (Zeros(f - |m|) + m)
  {
    LeadingZeros(f - |m|);
    var zeros := Zeros(f - |m|);
    var filled := Filled(m, f);
    assert filled == "0" + (zeros + m);
    assert filled[..1] == "0" && filled[1..] == zeros + m;
    assert "0" + "." == "0.";
  }

  lemma {:induction false} WithPointIsLayout(s: string, m: string, f: nat)
    requires 0 < |m| && f <= 20
    ensures WithPoint(s, m, f) == s + Layout(m, f)
  {
    if 0 < f && |m| <= f {
      hide Layout;
      ShortLayout(m, f);
      LeadingZeros(f - |m|);
      Regroup(s, "0.", Zeros(f - |m|), m);
    } else if f > 0 {
      assert m[0..|m| - f] == m[..|m| - f];
      Regroup(s, m[..|m| - f], ".", m[|m| - f..]);
    }
  }

  lemma {:induction false} Regroup(a: string, b: string, c: string, d: string)
    ensures a + (b + c) + d == a + (b + (c + d)) && a + b + c + d == a + (b + c + d)
  {
  }

  lemma {:induction false} LeadingZeros(k: nat)
    requires k <= 19
    ensures "0.0000000000000000000"[0..k + 2] == "0." + Zeros(k)
    ensures Zeros(k + 1) == "0" + Zeros(k)
  {
    var s := "0.0000000000000000000";
    assert forall i :: 2 <= i < 21 ==> s[i] == '0';
  }

  // ------------------------------------------------------------------------
  // Scaling
  // ------------------------------------------------------------------------

  const MOST: real := 1_000_000_000_000_000_000_000.0
  const LEAST: real := 1.0 / MOST
  const TWO_52: real := 4_503_599_627_370_496.0

  /** A number with at most 53 significant bits, none of them worth less than 2^-121. */
  predicate IsDouble(x: real, m: nat, q: int) {
    x == m as real * Power2(q) && m < Pow(2, 53) && -121 <= q
  }

  lemma {:induction false} PowersOf2()
    ensures Power2(52) == TWO_52 && MOST < Power2(70)
    ensures Pow(2, 53) == 9_007_199_254_740_992 && Pow(2, 23) == 8_388_608
  {
    hide Power2, Pow;
    Power2Zero();
    Power2By12(0); Power2By12(12); Power2By12(24); Power2By12(36); Power2By12(48); Power2By12(60);
    Power2Next(48); Power2Next(49); Power2Next(50); Power2Next(51); Power2Next(52);
    Power2Next(71); Power2Next(70);
    Power2Next(23);
    Power2Int(53);
    Power2Int(23);
  }

  /** The whole number that the shim computes with, and its exponent. */
  ghost predicate Scaled(x: real, z: real, e: int, whole: nat) {
    && z == whole as real && whole < Pow(2, 53)
    && -18 < e < 122
    && x == whole as real * Power2(-e)
  }

  /** What the logarithm says about the exponent. */
  lemma {:induction false} ExponentBounds(x: real, m: nat, q: int, y: real, n: nat)
    requires 0.0 < x < MOST && IsDouble(x, m, q) && y == x * Power2(69) && LogOf(y, n)
    ensures n < 139 && x < Power2(n - 69 + 1) && q - n + 121 >= 0
  {
    hide Power2, Pow, IsDouble;
    Power2Positive(69);
    if y < 1.0 {
      Power2Inverse(69);
      Unscale(x, Power2(-69), Power2(69), 1.0);
      Power2Next(-69);
      Power2Positive(-69);
      LeastBit(x, m, q);
    } else {
      Power2Add(69, n - 69);
      UnscaleLe(Power2(n - 69), x, Power2(69));
      Power2Add(69, n - 68);
      Unscale(x, Power2(n - 68), Power2(69), Power2(n + 1));
      PowersOf2();
      Power2Less(n - 69, 70);
      LowestBit(x, m, q);
      Power2Less(n - 69, 53 + q);
    }
  }

  lemma {:induction false} LeastBit(x: real, m: nat, q: int)
    requires IsDouble(x, m, q)
    ensures q >= -121
  {
  }

  lemma {:induction false} LowestBit(x: real, m: nat, q: int)
    requires IsDouble(x, m, q)
    ensures x < Power2(53 + q)
  {
    hide Power2, Pow;
    Power2Int(53);
    Power2Add(53, q);
    Power2Positive(q);
    MulBits(m, Power2(53), Power2(q));
  }

  lemma {:induction false} Unscale(x: real, a: real, p: real, b: real)
    requires x * p < b && p * a == b && p > 0.0
    ensures x < a
  {
    if a <= x {
      RealMulLe(a, x, p);
    }
  }

  lemma {:induction false} UnscaleLe(a: real, x: real, p: real)
    requires p * a <= x * p && p > 0.0
    ensures a <= x
  {
    if x < a {
      RealMulLess(x, a, p);
    }
  }

  lemma {:induction false} MulBits(m: nat, a: real, p: real)
    requires m as real < a && p > 0.0
    ensures m as real * p < a * p
  {
    RealMulLess(m as real, a, p);
  }

  /** Multiplying or dividing by the helper's power, as the sign asks, is scaling by -e. */
  lemma {:induction false} ScaleByPower(x: real, e: int)
    ensures e < 0 ==> x * PowAcc(2, -e, 1) as real == x * Power2(-e)
    ensures e >= 0 ==> PowAcc(2, e, 1) > 0 && x / PowAcc(2, e, 1) as real == x * Power2(-e)
  {
    hide Pow, PowAcc, Power2;
    if e < 0 {
      PowAccIs(2, -e, 1);
      Power2Int(-e);
    } else {
      PowPositive(e);
      Power2Positive(e);
      PowAccIs(2, e, 1);
      Power2Int(e);
      Power2Inverse(e);
      DivideBy(x, Power2(e), Power2(-e));
    }
  }

  lemma {:induction false} DivideBy(x: real, p: real, i: real)
    requires p > 0.0 && p * i == 1.0
    ensures x / p == x * i
  {
    RealMulAssoc(x, i, p);
    var y := x * i;
    assert y * p == x;
    DivideBack(x, p, y);
  }

  lemma {:induction false} DivideBack(x: real, p: real, y: real)
    requires p > 0.0 && y * p == x
    ensures x / p == y
  {
  }

  lemma {:induction false} Scaling(x: real, m: nat, q: int, n: nat) returns (whole: nat)
    requires 0.0 < x < MOST && IsDouble(x, m, q) && LogOf(x * Power2(69), n)
    ensures Scaled(x, x * Power2(69 - n) * TWO_52, 121 - n, whole)
  {
    hide Power2, Pow;
    var e := n - 69;
    ExponentBounds(x, m, q, x * Power2(69), n);
    whole := m * Pow(2, q - e + 52);
    TimesTwo52(x, -e);
    WholeIs(x, m, q, 52 - e);
    WholeBack(x, 52 - e);
    WholeBelow(x, e);
    Power2Int(53);
  }

  lemma {:induction false} TimesTwo52(x: real, k: int)
    ensures x * Power2(k) * TWO_52 == x * Power2(52 + k)
  {
    hide Power2, Pow;
    PowersOf2();
    Power2Add(52, k);
    RealMulAssoc(x, Power2(k), TWO_52);
  }

  lemma {:induction false} WholeBelow(x: real, e: int)
    requires x < Power2(e + 1)
    ensures x * Power2(52 - e) < Power2(53)
  {
    hide Power2, Pow;
    Power2Positive(52 - e);
    Power2Sum(52 - e, e + 1);
    RealMulLess(x, Power2(e + 1), Power2(52 - e));
  }

  lemma {:induction false} WholeIs(x: real, m: nat, q: int, k: int)
    requires x == m as real * Power2(q) && q + k >= 0
    ensures x * Power2(k) == (m * Pow(2, q + k)) as real
  {
    hide Power2, Pow;
    Power2Sum(q, k);
    Power2Int(q + k);
    RealMulAssoc(m as real, Power2(q), Power2(k));
    RealProduct(m, Pow(2, q + k));
  }

  lemma {:induction false} Power2Sum(j: int, k: int)
    ensures Power2(j + k) == Power2(j) * Power2(k)
  {
    hide Power2;
    if j >= 0 {
      Power2Add(j, k);
    } else {
      Power2Add(-j, j + k);
      Power2Inverse(-j);
      RealMulAssoc(Power2(j), Power2(-j), Power2(j + k));
    }
  }

  lemma {:induction false} RealProduct(a: int, b: int)
    ensures (a * b) as real == a as real * b as real
  {
  }

  lemma {:induction false} WholeBack(x: real, k: int)
    ensures x == x * Power2(k) * Power2(-k)
  {
    hide Power2;
    Power2Sum(k, -k);
    Power2Zero();
    CancelOne(x, Power2(k), Power2(-k));
  }

  lemma {:induction false} CancelOne(x: real, p: real, i: real)
    requires p * i == 1.0
    ensures (x * p) * i == x
  {
    RealMulAssoc(x, p, i);
  }

  // ------------------------------------------------------------------------
  // The digits of the rounded number
  // ------------------------------------------------------------------------

  const CAPACITY: nat := Pow(BASE, SIZE)

  lemma {:induction false} Fits(whole: nat, k: nat)
    requires whole < Pow(2, 53) && k <= 20
    ensures whole * Pow(10, k) + 1 < CAPACITY
  {
    hide Pow;
    PowersOf2();
    Capacity();
    PowMonotone(10, k, 20);
    MulLe(whole, 10_000_000_000_000_000, Pow(10, k));
    MulLe(Pow(10, k), Pow(10, 20), 10_000_000_000_000_000);
  }

  lemma {:induction false} Capacity()
    ensures CAPACITY == 1_000_000_000_000_000_000_000_000_000_000_000_000_000_000
    ensures Pow(10, 20) == 100_000_000_000_000_000_000 && Pow(10, 7) == BASE
  {
    assert Pow(BASE, 2) == 100_000_000_000_000;
    assert Pow(BASE, 3) == 1_000_000_000_000_000_000_000;
    assert Pow(BASE, 4) == BASE * Pow(BASE, 3) && Pow(BASE, 5) == BASE * Pow(BASE, 4) && Pow(BASE, 6) == BASE * Pow(BASE, 5);
    assert Pow(10, 5) == 100_000;
    assert Pow(10, 7) == 10 * (10 * Pow(10, 5));
    PowBy5(5); PowBy5(10); PowBy5(15);
  }

  lemma {:induction false} PowBy5(k: nat)
    ensures Pow(10, k + 5) == 100_000 * Pow(10, k)
  {
    assert Pow(10, k + 1) == 10 * Pow(10, k) && Pow(10, k + 2) == 10 * Pow(10, k + 1);
    assert Pow(10, k + 3) == 10 * Pow(10, k + 2) && Pow(10, k + 4) == 10 * Pow(10, k + 3);
  }

  lemma {:induction false} NoWrap(v: nat)
    requires v < CAPACITY
    ensures v % CAPACITY == v
  {
    Quotient(v, CAPACITY, 0, v);
  }

  /** One multiplication by a power of ten that stays within the capacity. */
  lemma {:induction false} TimesTen(whole: nat, k: nat, j: nat)
    requires whole < Pow(2, 53) && k + j <= 20
    ensures (whole * Pow(10, k) * Pow(10, j) + 0) % CAPACITY == whole * Pow(10, k + j)
  {
    hide Pow;
    PowAdd(10, k, j);
    MulAssoc(whole, Pow(10, k), Pow(10, j));
    Fits(whole, k + j);
    NoWrap(whole * Pow(10, k + j));
  }

  /** One more division in the chain. */
  lemma {:induction false} ByTwo(v: nat, k: nat, j: nat)
    ensures Pow(2, k) > 0 && Pow(2, j) > 0 && Pow(2, k + j) > 0
    ensures (v / Pow(2, k)) / Pow(2, j) == v / Pow(2, k + j)
  {
    hide Pow;
    PowPositive(k);
    PowPositive(j);
    PowPositive(k + j);
    PowAdd(2, k, j);
    DivideTwice(v, Pow(2, k), Pow(2, j));
  }

  lemma {:induction false} PowPositive(k: nat)
    ensures Pow(2, k) > 0 && Pow(10, k) > 0
  {
  }

  lemma {:induction false} SmallPowers(j: nat)
    ensures j <= 23 ==> Pow(2, j) <= 8_388_608
    ensures j < 7 ==> Pow(10, j) <= 1_000_000
  {
    PowersOf2();
    if j <= 23 {
      PowMonotone(2, j, 23);
    }
    if j < 7 {
      PowMonotone(10, j, 6);
      assert Pow(10, 6) == 1_000_000;
    }
  }

  /** The chain of the first branch ends with the rounded number. */
  lemma {:induction false} ChainRounds(x: real, whole: nat, e: int, f: nat)
    requires x == whole as real * Power2(-e) && e > 0
    ensures Pow(2, e - 1) > 0
    ensures RoundsTo(InUnits(x, f), (whole * Pow(10, f) / Pow(2, e - 1) + 1) / 2)
  {
    hide Pow, Power2;
    PowPositive(e - 1);
    var h, a := Pow(2, e - 1), whole * Pow(10, f);
    HalfUp(a, h);
    Power2Positive(e);
    Power2Int(e - 1);
    Power2Next(e - 1);
    Unscaled(x, whole, e, Pow(10, f));
    HalfUpInt(x * Pow(10, f) as real, Power2(e), a, h, (a / h + 1) / 2);
  }

  lemma {:induction false} HalfUpInt(y: real, d: real, a: nat, h: nat, n: nat)
    requires d > 0.0 && d == 2.0 * h as real && y * d == a as real && 2 * h * n <= a + h < 2 * h * n + 2 * h
    ensures RoundsTo(y, n)
  {
    RealProduct(n, 2 * h);
    MulSwap(2, h, n);
    assert n as real * d == (n * (2 * h)) as real;
    HalfUpRounds(y, d, a as real, n as real);
  }

  lemma {:induction false} Unscaled(x: real, whole: nat, e: int, t: nat)
    requires x == whole as real * Power2(-e)
    ensures x * t as real * Power2(e) == (whole * t) as real
  {
    hide Power2;
    Power2Sum(-e, e);
    Power2Zero();
    CancelOne(whole as real, Power2(-e), Power2(e));
    RealMulSwap(x, t as real, Power2(e));
    RealProduct(whole, t);
  }

  lemma {:induction false} RealMulSwap(a: real, b: real, c: real)
    ensures a * b * c == a * c * b
  {
  }

  /** In the other branch the number is whole. */
  lemma {:induction false} WholeRounds(x: real, v: nat, f: nat)
    requires x == v as real && v > 0
    ensures RoundsTo(InUnits(x, f), v * Pow(10, f))
    ensures Decimal(v) + Zeros(f) == Decimal(v * Pow(10, f))
  {
    hide Pow, Decimal;
    WholeRoundsTo(x, v, Pow(10, f));
    PowPositive(f);
    DecimalJoin(v, 0, f);
    PaddedZero(f);
  }

  lemma {:induction false} WholeRoundsTo(x: real, v: nat, t: nat)
    requires x == v as real
    ensures RoundsTo(x * t as real, v * t)
  {
    RealProduct(v, t);
  }

  /** `1 << k`, for shifts that do not reach the sign. */
  function ShiftedOne(k: nat): nat
    requires k < 31
  {
    Pow(2, k)
  }

  /** The value that `multiply(0, z)` leaves. */
  lemma {:induction false} Loaded(was: nat, whole: nat)
    requires whole < Pow(2, 53)
    ensures (was * 0 + whole) % CAPACITY == whole
  {
    Fits(whole, 0);
    NoWrap(whole);
  }

  /** The largest values that the calls of `toFixed` compute are exact in 53 bits. */
  lemma {:induction false} PeaksFit(n: nat, c: nat)
    requires (n == 0 && c < Pow(2, 53)) || (n <= BASE && c <= 1)
    ensures Max(c, n) + n * (BASE - 1) < Pow(2, 53) && n * BASE < Pow(2, 53)
  {
    PowersOf2();
    MulLe(n, BASE, BASE);
    MulLe(n, BASE, BASE - 1);
  }

  /**
    The digits that `toFixed` computes for a number above 10^-21: those of the nearest
    integer, and nothing on the way is too large to be exact.
  */
  method RoundedDigits(helpers: BigNumber, x: real, f: nat, ghost m: nat, ghost q: int)
    returns (s: string, ghost n: nat, ghost peak: nat)
    requires helpers.Valid() && LEAST < x < MOST && f <= 20 && IsDouble(x, m, q)
    modifies helpers.data
    ensures helpers.Valid() && helpers.data == old(helpers.data)
    ensures RoundsTo(InUnits(x, f), n) && s == Decimal(n)
    ensures peak < Pow(2, 53)
  {
    hide Pow, Power2, IsDouble, RoundsTo, InUnits, PowAcc;
    ScaleByPower(x, -69);
    assert x > 0.0;
    Power2Positive(69);
    PositiveProduct(x, Power2(69));
    var log: int;
    var y := x * PowAcc(2, 69, 1) as real;
    assert y == x * Power2(69) && y >= 0.0;
    log := Log(y);
    var e := log - 69;
    ghost var whole := Scaling(x, m, q, log);
    ScaleByPower(x, e);
    var z := if e < 0 then x * PowAcc(2, -e, 1) as real else x / PowAcc(2, e, 1) as real;
    z := z * TWO_52;
    e := 52 - e;
    assert Scaled(x, z, e, whole);
    if e > 0 {
      s, n, peak := Chain(helpers, x, z.Floor, e, f);
    } else {
      s, n, peak := WholeDigits(helpers, x, z.Floor, -e, f);
    }
  }

  /** The branch for numbers without binary places. */
  method WholeDigits(helpers: BigNumber, ghost x: real, z: nat, k: nat, f: nat)
    returns (s: string, ghost n: nat, ghost peak: nat)
    requires helpers.Valid() && f <= 20 && z < Pow(2, 53) && k < 18
    requires 0.0 < x < MOST && x == z as real * Power2(k)
    modifies helpers.data
    ensures helpers.Valid() && helpers.data == old(helpers.data)
    ensures RoundsTo(InUnits(x, f), n) && s == Decimal(n)
    ensures peak < Pow(2, 53)
  {
    hide Pow, Power2, RoundsTo, InUnits;
    PeaksFit(0, z);
    peak := helpers.Multiply(0, z);
    Loaded(old(helpers.Number()), z);
    SmallPowers(k);
    PeaksFit(ShiftedOne(k), 0);
    WholeFits(x, z, k);
    ghost var last := helpers.Multiply(ShiftedOne(k), 0);
    peak := Max(peak, last);
    s := helpers.NumToString();
    assert "0.00000000000000000000"[2..2 + f] == Zeros(f);
    WholeRounds(x, z * Pow(2, k), f);
    n := z * Pow(2, k) * Pow(10, f);
    s := s + "0.00000000000000000000"[2..2 + f];
  }

  lemma {:induction false} PositiveProduct(a: real, b: real)
    requires a > 0.0 && b > 0.0
    ensures a * b >= 0.0
  {
  }

  lemma {:induction false} WholeFits(x: real, whole: nat, k: nat)
    requires 0.0 < x < MOST && x == whole as real * Power2(k)
    ensures x == (whole * Pow(2, k)) as real && 0 < whole * Pow(2, k) < CAPACITY
    ensures (whole * Pow(2, k) + 0) % CAPACITY == whole * Pow(2, k)
  {
    hide Pow, Power2;
    Power2Int(k);
    RealProduct(whole, Pow(2, k));
    Capacity();
    NoWrap(whole * Pow(2, k));
  }

  /** The branch for numbers with binary places: first the power of ten. */
  method TimesPowerOfTen(helpers: BigNumber, z: nat, f: nat) returns (ghost peak: nat)
    requires helpers.Valid() && f <= 20 && z < Pow(2, 53)
    modifies helpers.data
    ensures helpers.Valid() && helpers.data == old(helpers.data)
    ensures helpers.Number() == z * Pow(10, f) && peak < Pow(2, 53)
  {
    hide Pow;
    ghost var one;
    PeaksFit(0, z);
    peak := helpers.Multiply(0, z);
    Loaded(old(helpers.Number()), z);
    var j := f;
    Ten(z);
    while j >= 7
      invariant 0 <= j <= f && helpers.Valid() && helpers.data == old(helpers.data)
      invariant helpers.Number() == z * Pow(10, f - j) && peak < Pow(2, 53)
    {
      PeaksFit(BASE, 0);
      TimesTen(z, f - j, 7);
      Capacity();
      one := helpers.Multiply(10_000_000, 0);
      peak := Max(peak, one);
      j := j - 7;
    }
    PowAccIs(10, j, 1);
    SmallPowers(j);
    PeaksFit(Pow(10, j), 0);
    TimesTen(z, f - j, j);
    one := helpers.Multiply(PowAcc(10, j, 1), 0);
    peak := Max(peak, one);
  }

  /** Then all binary places but one. */
  method ByPowerOfTwo(helpers: BigNumber, k: nat) returns (ghost peak: nat)
    requires helpers.Valid()
    modifies helpers.data
    ensures helpers.Valid() && helpers.data == old(helpers.data)
    ensures Pow(2, k) > 0 && helpers.Number() == old(helpers.Number()) / Pow(2, k) && peak < Pow(2, 53)
  {
    hide Pow;
    ghost var one;
    ghost var a := helpers.Number();
    var j := k;
    peak := 0;
    Ten(a);
    PowPositive(53);
    while j >= 23
      invariant 0 <= j <= k && helpers.Valid() && helpers.data == old(helpers.data)
      invariant Pow(2, k - j) > 0 && helpers.Number() == a / Pow(2, k - j) && peak < Pow(2, 53)
    {
      ByTwo(a, k - j, 23);
      SmallPowers(23);
      PeaksFit(ShiftedOne(23), 0);
      one := helpers.Divide(ShiftedOne(23));
      peak := Max(peak, one);
      j := j - 23;
    }
    ByTwo(a, k - j, j);
    SmallPowers(j);
    PeaksFit(ShiftedOne(j), 0);
    one := helpers.Divide(ShiftedOne(j));
    peak := Max(peak, one);
  }

  /** And then the last one, with rounding. */
  method Chain(helpers: BigNumber, ghost x: real, z: nat, e: int, f: nat)
    returns (s: string, ghost n: nat, ghost peak: nat)
    requires helpers.Valid() && f <= 20 && z < Pow(2, 53) && 0 < e < 122
    requires x == z as real * Power2(-e)
    modifies helpers.data
    ensures helpers.Valid() && helpers.data == old(helpers.data)
    ensures RoundsTo(InUnits(x, f), n) && s == Decimal(n)
    ensures peak < Pow(2, 53)
  {
    hide Pow, Power2, RoundsTo, InUnits;
    ghost var one;
    peak := TimesPowerOfTen(helpers, z, f);
    one := ByPowerOfTwo(helpers, e - 1);
    peak := Max(peak, one);
    PeaksFit(1, 1);
    OneMore(z * Pow(10, f), Pow(2, e - 1), z, f);
    one := helpers.Multiply(1, 1);
    peak := Max(peak, one);
    PeaksFit(2, 1);
    one := helpers.Divide(2);
    peak := Max(peak, one);
    s := helpers.NumToString();
    ChainRounds(x, z, e, f);
    n := helpers.Number();
  }

  lemma {:induction false} Ten(v: nat)
    ensures v * Pow(10, 0) == v && Pow(2, 0) == 1 && v / Pow(2, 0) == v
  {
  }

  lemma {:induction false} OneMore(a: nat, p: nat, z: nat, f: nat)
    requires p > 0 && z < Pow(2, 53) && f <= 20 && a == z * Pow(10, f)
    ensures (a / p * 1 + 1) % CAPACITY == a / p + 1
  {
    hide Pow;
    Fits(z, f);
    NotLarger(a, p);
    NoWrap(a / p + 1);
  }

  lemma {:induction false} NotLarger(a: nat, p: nat)
    requires p > 0
    ensures 0 <= a / p <= a
  {
    DivMod(a, p);
    QuotientBound(a, p, a + 1) by {
      MulLe(1, p, a + 1);
    }
  }

  // ------------------------------------------------------------------------
  // toFixed
  // ------------------------------------------------------------------------

  datatype Number = NaN | PositiveInfinity | NegativeInfinity | Finite(value: real)

  /** A string, the exception for a bad number of decimals, or what `String` makes of the number. */
  datatype Answer = Text(s: string) | RangeError | Plain

  /** The number of decimals, if it is one from 0 to 20. */
  function Places(digits: Number): int {
    match digits
    case NaN => 0
    case Finite(d) => d.Floor
    case PositiveInfinity => 21
    case NegativeInfinity => -1
  }

  /** No number of decimals is none, and a broken number is rounded down; all others are out of range. */
  lemma {:induction false} PlacesAre(digits: Number, f: int)
    requires 0 <= f <= 20
    ensures Places(digits) == f <==>
            (digits.NaN? && f == 0) || (digits.Finite? && f as real <= digits.value < f as real + 1.0)
  {
    if digits.Finite? {
      var whole := digits.value.Floor;
      assert whole as real <= digits.value < whole as real + 1.0;
      assert whole == f <==> whole as real == f as real;
    }
  }

  /** The numbers for which the shim's big number needs no fraction below its lowest limb. */
  predicate Supported(x: real, m: nat, q: int) {
    Abs(x) <= LEAST || IsDouble(Abs(x), m, q)
  }

  /**
    `toFixed`: the sign and then the digits, with the point put in, of the integer nearest
    to the number times the power of ten, the larger one if two are as near.
  */
  method Run(helpers: BigNumber, number: Number, digits: Number, ghost m: nat, ghost q: int)
    returns (r: Answer, ghost n: nat)
    requires helpers.Valid() && (number.Finite? ==> Supported(number.value, m, q))
    modifies helpers.data
    ensures helpers.Valid() && helpers.data == old(helpers.data)
    ensures !(0 <= Places(digits) <= 20) ==> r == RangeError
    ensures 0 <= Places(digits) <= 20 ==>
      match number {
        case NaN => r == Text("NaN")
        case PositiveInfinity => r == Plain
        case NegativeInfinity => r == Plain
        case Finite(x) =>
          if Abs(x) >= 1_000_000_000_000_000_000_000.0 then r == Plain
          else
            && RoundsTo(InUnits(Abs(x), Places(digits)), n)
            && r == Text((if x < 0.0 then "-" else "") + Layout(Decimal(n), Places(digits)))
      }
  {
    hide Pow, Layout, RoundsTo, Supported, InUnits;
    n := 0;
    var f := Places(digits);
    if f < 0 || f > 20 {
      return RangeError, 0;
    }
    if number.NaN? {
      return Text("NaN"), 0;
    }
    if !number.Finite? || number.value <= -MOST || number.value >= MOST {
      return Plain, 0;
    }
    var text;
    text, n := Formatted(helpers, number.value, f, m, q);
    r := Text(text);
  }

  /** The rest of `toFixed`, for numbers that are not too large. */
  method Formatted(helpers: BigNumber, number: real, f: nat, ghost m: nat, ghost q: int)
    returns (text: string, ghost n: nat)
    requires helpers.Valid() && f <= 20 && -MOST < number < MOST && Supported(number, m, q)
    modifies helpers.data
    ensures helpers.Valid() && helpers.data == old(helpers.data)
    ensures RoundsTo(InUnits(Abs(number), f), n)
    ensures text == (if number < 0.0 then "-" else "") + Layout(Decimal(n), f)
  {
    hide Pow, Layout, RoundsTo, InUnits;
    var x := number;
    var s := "";
    if x < 0.0 {
      s := "-";
      x := -x;
    }
    var digitString := "0";
    n := 0;
    if x > LEAST {
      ghost var peak;
      digitString, n, peak := RoundedDigits(helpers, x, f, m, q);
    } else {
      TinyRounds(x, f);
    }
    WithPointIsLayout(s, digitString, f);
    text := WithPoint(s, digitString, f);
  }

  /** What is at most 10^-21 rounds to zero. */
  lemma {:induction false} TinyRounds(x: real, f: nat)
    requires 0.0 <= x <= LEAST && f <= 20
    ensures RoundsTo(InUnits(x, f), 0) && Decimal(0) == "0"
  {
    hide Pow;
    Capacity();
    PowPositive(f);
    PowMonotone(10, f, 20);
    Tiny(x, Pow(10, f));
  }

  lemma {:induction false} Tiny(x: real, t: nat)
    requires 0.0 <= x <= LEAST && 0 < t <= 100_000_000_000_000_000_000
    ensures RoundsTo(x * t as real, 0)
  {
    var y := x * t as real;
    TinyNonneg(x, t as real, y);
    TinyBound(x, t as real, y);
  }

  lemma {:induction false} TinyNonneg(x: real, t: real, y: real)
    requires 0.0 <= x && 0.0 < t && y == x * t
    ensures 0.0 <= y
  {
    RealMulLe(0.0, x, t);
  }

  lemma {:induction false} TinyBound(x: real, t: real, y: real)
    requires 0.0 <= x <= LEAST && 0.0 < t <= 100_000_000_000_000_000_000.0 && y == x * t
    ensures y < 0.5
  {
    RealMulLe(x, LEAST, t);
    assert LEAST * t <= 0.1;
  }
}
