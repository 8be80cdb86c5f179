/** Facts about products and quotients, one at a time. */
module Arithmetic {

  lemma {:induction false} MulLe(a: int, b: int, c: int)
    requires a <= b && 0 <= c
    ensures a * c <= b * c && c * a <= c * b
  {
  }

  lemma {:induction false} MulAssoc(a: int, b: int, c: int)
    ensures a * (b * c) == (a * b) * c
  {
  }

  lemma {:induction false} MulAdd(a: int, b: int, c: int)
    ensures a * (b + c) == a * b + a * c && (b + c) * a == b * a + c * a
  {
  }

  lemma {:induction false} MulSwap(a: int, b: int, c: int)
    ensures a * (b * c) == (a * c) * b && a * (b * c) == b * (a * c)
  {
  }

  lemma {:induction false} MulPositive(a: int, b: int)
    requires a > 0 && b > 0
    ensures a * b > 0
  {
  }

  lemma {:induction false} DivMod(a: int, n: int)
    requires n > 0
    ensures a == n * (a / n) + a % n && 0 <= a % n < n
  {
  }

  /** Quotient and remainder are determined by what they satisfy. */
  lemma {:induction false} DivModUnique(n: int, q: int, r: int, q': int, r': int)
    requires n * q + r == n * q' + r' && 0 <= r < n && 0 <= r' < n
    ensures q == q' && r == r'
  {
    if q < q' {
      MulLe(q + 1, q', n);
      MulAdd(n, q, 1);
      assert false;
    }
    if q' < q {
      MulLe(q' + 1, q, n);
      MulAdd(n, q', 1);
      assert false;
    }
  }

  lemma {:induction false} Quotient(a: int, n: int, q: int, r: int)
    requires a == n * q + r && 0 <= r < n
    ensures a / n == q && a % n == r
  {
    DivMod(a, n);
    DivModUnique(n, q, r, a / n, a % n);
  }

  lemma {:induction false} QuotientBound(c: int, n: int, b: int)
    requires 0 < n && 0 <= c < n * b
    ensures 0 <= c / n < b
  {
    DivMod(c, n);
    if b <= c / n {
      MulLe(b, c / n, n);
      assert false;
    }
    if c / n < 0 {
      MulLe(c / n, -1, n);
      assert false;
    }
  }

  /** Dividing by one number and then by another is dividing by their product. */
  lemma {:induction false} DivideTwice(v: int, a: int, b: int)
    requires a > 0 && b > 0
    ensures a * b > 0 && (v / a) / b == v / (a * b)
  {
    var q, x := v / a, v % a;
    var p, y := q / b, q % b;
    MulPositive(a, b);
    DivMod(v, a);
    DivMod(q, b);
    MulAdd(a, b * p, y);
    MulAssoc(a, b, p);
    MulLe(y, b - 1, a);
    MulAdd(a, b, -1);
    MulLe(0, y, a);
    Quotient(v, a * b, p, a * y + x);
  }
}
