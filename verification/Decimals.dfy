/** Powers, and numbers written in decimal. */
module Decimals {
  import opened Arithmetic

  function Pow(b: nat, k: nat): (p: nat)
    ensures b > 0 ==> p > 0
  {
    Raised(b, k)
  }

  function Raised(b: nat, k: nat): (p: nat)
    ensures b > 0 ==> p > 0
  {
    if k == 0 then 1 else b * Raised(b, k - 1)
  }

  lemma {:induction false} PowAdd(b: nat, j: nat, k: nat)
    ensures Pow(b, j + k) == Pow(b, j) * Pow(b, k)
    decreases j
  {
    if j > 0 {
      PowAdd(b, j - 1, k);
      MulAssoc(b, Pow(b, j - 1), Pow(b, k));
    }
  }

  lemma {:induction false} PowMonotone(b: nat, j: nat, k: nat)
    requires j <= k && b > 0
    ensures Pow(b, j) <= Pow(b, k)
    decreases k
  {
    if j < k {
      PowMonotone(b, j, k - 1);
      MulLe(1, b, Pow(b, k - 1));
    }
  }

  // ------------------------------------------------------------------------
  // Decimal strings
  // ------------------------------------------------------------------------

  function Digit(d: nat): char
    requires d < 10
  {
    '0' + d as char
  }

  predicate IsDigit(c: char) {
    '0' <= c <= '9'
  }

  function DigitValue(c: char): nat {
    if IsDigit(c) then c as int - '0' as int else 0
  }

  /** The decimal digits of a number, without leading zeros. */
  function Decimal(n: nat): (s: string)
    ensures |s| > 0 && (forall i :: 0 <= i < |s| ==> IsDigit(s[i])) && (s[0] == '0' ==> n == 0)
  {
    if n < 10 then [Digit(n)] else Decimal(n / 10) + [Digit(n % 10)]
  }

  /** The number that a string of digits denotes. */
  function Parse(s: string): nat {
    if s == "" then 0 else Parse(s[..|s| - 1]) * 10 + DigitValue(s[|s| - 1])
  }

  lemma {:induction false} ParseDecimal(n: nat)
    ensures Parse(Decimal(n)) == n
    decreases n
  {
    var s := Decimal(n);
    if n >= 10 {
      ParseDecimal(n / 10);
      assert s[..|s| - 1] == Decimal(n / 10);
    } else {
      assert s[..|s| - 1] == "";
    }
  }

  function Zeros(k: nat): (s: string)
    ensures |s| == k && forall i :: 0 <= i < k ==> s[i] == '0'
  {
    if k == 0 then "" else Zeros(k - 1) + "0"
  }

  /** The last `k` digits of a number. */
  function Padded(d: nat, k: nat): (s: string)
    ensures |s| == k && forall i :: 0 <= i < k ==> IsDigit(s[i])
  {
    if k == 0 then "" else Padded(d / 10, k - 1) + [Digit(d % 10)]
  }

  lemma {:induction false} PaddedZero(k: nat)
    ensures Padded(0, k) == Zeros(k)
    decreases k
  {
    if k > 0 {
      PaddedZero(k - 1);
    }
  }

  lemma {:induction false} PaddedDecimal(d: nat, k: nat)
    requires 0 < k && d < Pow(10, k)
    ensures |Decimal(d)| <= k && Padded(d, k) == Zeros(k - |Decimal(d)|) + Decimal(d)
    decreases k
  {
    if d < 10 {
      PaddedZero(k - 1);
    } else {
      assert k > 1 by {
        assert Pow(10, 1) == 10 * Pow(10, 0);
      }
      PaddedDecimal(d / 10, k - 1);
      var z := Zeros(k - |Decimal(d)|);
      assert z + Decimal(d) == (z + Decimal(d / 10)) + [Digit(d % 10)];
    }
  }

  /** Writing a number and then `k` more digits. */
  lemma {:induction false} DecimalJoin(v: nat, d: nat, k: nat)
    requires v > 0 && d < Pow(10, k)
    ensures Decimal(v * Pow(10, k) + d) == Decimal(v) + Padded(d, k)
    decreases k
  {
    if k == 0 {
      assert Decimal(v) + "" == Decimal(v);
    } else {
      var p := Pow(10, k - 1);
      var n := v * Pow(10, k) + d;
      assert v * Pow(10, k) == 10 * (v * p);
      assert n / 10 == v * p + d / 10 && n % 10 == d % 10;
      assert v * p >= 1 by {
        assert v * p >= 1 * p;
      }
      DecimalJoin(v, d / 10, k - 1);
      assert Decimal(v) + Padded(d, k) == (Decimal(v) + Padded(d / 10, k - 1)) + [Digit(d % 10)];
    }
  }

  lemma {:induction false} ParseJoin(a: string, b: string)
    ensures Parse(a + b) == Parse(a) * Pow(10, |b|) + Parse(b)
    decreases |b|
  {
    if b == "" {
      assert a + b == a;
    } else {
      var b' := b[..|b| - 1];
      assert (a + b)[..|a + b| - 1] == a + b';
      ParseJoin(a, b');
      MulSwap(Parse(a), 10, Pow(10, |b'|));
    }
  }

  lemma {:induction false} ParseZeros(k: nat)
    ensures Parse(Zeros(k)) == 0
    decreases k
  {
    if k > 0 {
      ParseZeros(k - 1);
      assert Zeros(k)[..k - 1] == Zeros(k - 1);
    }
  }
}
