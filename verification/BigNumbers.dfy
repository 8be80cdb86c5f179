/**
  The big number that `toFixed` computes with: six limbs of seven decimal digits,
  the lowest first, changed in place.
*/
module BigNumbers {
  import opened Arithmetic
  import opened Decimals

  const BASE: nat := 10_000_000
  const SIZE: nat := 6

  function Value(limbs: seq<nat>): nat {
    if limbs == [] then 0 else limbs[0] + BASE * Value(limbs[1..])
  }

  predicate Limbs(limbs: seq<nat>) {
    forall i | 0 <= i < |limbs| :: limbs[i] < BASE
  }

  lemma {:induction false} ValueAppend(limbs: seq<nat>, d: nat)
    ensures Value(limbs + [d]) == Value(limbs) + Pow(BASE, |limbs|) * d
    decreases |limbs|
  {
    if limbs == [] {
      assert [d][1..] == [];
    } else {
      var rest := limbs[1..];
      ValueAppend(rest, d);
      assert (limbs + [d])[1..] == rest + [d];
      MulAdd(BASE, Value(rest), Pow(BASE, |rest|) * d);
      MulAssoc(BASE, Pow(BASE, |rest|), d);
    }
  }

  lemma {:induction false} ValueBound(limbs: seq<nat>)
    requires Limbs(limbs)
    ensures Value(limbs) < Pow(BASE, |limbs|)
    decreases |limbs|
  {
    if limbs != [] {
      ValueBound(limbs[1..]);
      MulLe(Value(limbs[1..]) + 1, Pow(BASE, |limbs| - 1), BASE);
    }
  }

  function Max(a: nat, b: nat): nat {
    if a < b then b else a
  }

  class BigNumber {
    var data: array<nat>

    ghost predicate Valid()
      reads this, data
    {
      data.Length == SIZE && Limbs(data[..])
    }

    ghost function Number(): nat
      reads this, data
    {
      Value(data[..])
    }

    constructor ()
      ensures Valid() && fresh(data)
    {
      data := new nat[SIZE](_ => 0);
    }

    /**
      `multiply`: the number becomes number * n + c, without what does not fit. `peak` is the
      largest value that the loop computes on the way.
    */
    method Multiply(n: nat, c: nat) returns (ghost peak: nat)
      requires Valid()
      modifies data
      ensures Valid() && data == old(data)
      ensures Number() == (old(Number()) * n + c) % Pow(BASE, SIZE)
      ensures peak <= Max(c, n) + n * (BASE - 1)
    {
      hide Multiplying, Value, Pow, Limbs;
      ghost var was := data[..];
      var i: nat := 0;
      var c2: nat := c;
      peak := c;
      MultiplyStarts(was, n, c);
      while i < SIZE
        invariant 0 <= i <= SIZE == data.Length && data == old(data)
        invariant Multiplying(data[..], was, i, n, c, c2)
        invariant peak <= Max(c, n) + n * (BASE - 1)
      {
        ghost var now := data[..];
        MultiplyOne(now, was, i, n, c, c2);
        c2 := c2 + n * data[i];
        peak := Max(peak, c2);
        data[i] := c2 % BASE;
        c2 := c2 / BASE;
        assert data[..] == now[i := data[i]];
        i := i + 1;
      }
      MultiplyEnds(data[..], was, n, c, c2);
    }

    /** `divide`: the number becomes the whole part of number / n. */
    method Divide(n: nat) returns (ghost peak: nat)
      requires Valid() && n > 0
      modifies data
      ensures Valid() && data == old(data)
      ensures Number() == old(Number()) / n
      ensures peak < n * BASE
    {
      hide Dividing, Value, Limbs;
      ghost var was := data[..];
      var i: nat := SIZE;
      var c: nat := 0;
      peak := 0;
      MulPositive(n, BASE);
      DivideStarts(was, n);
      while i > 0
        invariant 0 <= i <= SIZE == data.Length && data == old(data)
        invariant Dividing(data[..], was, i, n, c)
        invariant peak < n * BASE
      {
        i := i - 1;
        ghost var now := data[..];
        DivideOne(now, was, i, n, c);
        c := c + data[i];
        peak := Max(peak, c);
        data[i] := c / n;
        c := (c % n) * BASE;
        assert data[..] == now[i := data[i]];
      }
      DivideEnds(data[..], was, n, c);
    }

    /** `numToString` */
    method NumToString() returns (s: string)
      requires Valid()
      ensures s == Decimal(Number())
    {
      var i := SIZE;
      s := "";
      while i > 0
        invariant 0 <= i <= SIZE
        invariant s == if i == 0 || Value(data[i..]) > 0 then Decimal(Value(data[i..])) else ""
      {
        i := i - 1;
        ghost var above := Value(data[i + 1..]);
        assert data[i..][0] == data[i] && data[i..][1..] == data[i + 1..];
        if s != "" || i == 0 || data[i] != 0 {
          var t := Decimal(data[i]);
          if s == "" {
            s := t;
          } else {
            LimbDigits(above, data[i]);
            s := s + "0000000"[0..7 - |t|] + t;
          }
        }
      }
      assert data[0..] == data[..];
    }
  }

  // ------------------------------------------------------------------------
  // The loop of multiply
  // ------------------------------------------------------------------------

  lemma {:induction false} CarryBound(c: nat, n: nat, carry: nat, d: nat)
    requires carry <= Max(c, n) && d < BASE
    ensures carry + n * d <= Max(c, n) + n * (BASE - 1)
    ensures 0 <= (carry + n * d) / BASE <= Max(c, n)
  {
    var m := Max(c, n);
    MulLe(d, BASE - 1, n);
    MulLe(n, m, BASE - 1);
    MulAdd(BASE, m, 1);
    QuotientBound(carry + n * d, BASE, m + 1);
  }

  lemma {:induction false} MultiplyStep(now: seq<nat>, was: seq<nat>, n: nat, c: nat, carry: nat, d: nat)
    requires |now| == |was| && Value(now) + Pow(BASE, |now|) * carry == Value(was) * n + c
    ensures var c2 := carry + n * d;
            Value(now + [c2 % BASE]) + Pow(BASE, |now| + 1) * (c2 / BASE) == Value(was + [d]) * n + c
  {
    var p, c2 := Pow(BASE, |now|), carry + n * d;
    var x, y := c2 % BASE, c2 / BASE;
    ValueAppend(now, x);
    ValueAppend(was, d);
    DivMod(c2, BASE);
    MulAdd(p, x, BASE * y);
    MulSwap(p, BASE, y);
    MulAssoc(BASE, p, y);
    MulAdd(p, carry, n * d);
    MulSwap(p, n, d);
    MulAdd(n, Value(was), p * d);
  }

  /** After `i` limbs: what is done, what is left, and the carry. */
  ghost predicate Multiplying(now: seq<nat>, was: seq<nat>, i: nat, n: nat, c: nat, carry: nat) {
    && i <= |now| == |was| && Limbs(now) && now[i..] == was[i..]
    && Value(now[..i]) + Pow(BASE, i) * carry == Value(was[..i]) * n + c
    && carry <= Max(c, n)
  }

  lemma {:induction false} MultiplyStarts(was: seq<nat>, n: nat, c: nat)
    requires Limbs(was)
    ensures Multiplying(was, was, 0, n, c, c) && c <= Max(c, n) + n * (BASE - 1)
  {
    MulLe(0, BASE - 1, n);
  }

  lemma {:induction false} MultiplyOne(now: seq<nat>, was: seq<nat>, i: nat, n: nat, c: nat, carry: nat)
    requires Multiplying(now, was, i, n, c, carry) && i < |now|
    ensures carry + n * now[i] <= Max(c, n) + n * (BASE - 1)
    ensures var c2 := carry + n * now[i];
            Multiplying(now[i := c2 % BASE], was, i + 1, n, c, c2 / BASE)
  {
    hide Value, Pow;
    assert now[i] == was[i] by { assert now[i..][0] == was[i..][0]; }
    var c2 := carry + n * now[i];
    var next := now[i := c2 % BASE];
    CarryBound(c, n, carry, now[i]);
    MultiplyStep(now[..i], was[..i], n, c, carry, was[i]);
    assert next[..i + 1] == now[..i] + [c2 % BASE] && was[..i + 1] == was[..i] + [was[i]];
    assert next[i + 1..] == now[i..][1..] && was[i + 1..] == was[i..][1..];
  }

  lemma {:induction false} MultiplyEnds(now: seq<nat>, was: seq<nat>, n: nat, c: nat, carry: nat)
    requires Multiplying(now, was, |now|, n, c, carry)
    ensures Value(now) == (Value(was) * n + c) % Pow(BASE, |now|) && Limbs(now)
  {
    assert now[..|now|] == now && was[..|now|] == was;
    ValueBound(now);
    Quotient(Value(was) * n + c, Pow(BASE, |now|), carry, Value(now));
  }

  // ------------------------------------------------------------------------
  // The loop of divide
  // ------------------------------------------------------------------------

  lemma {:induction false} DivideStep(was: seq<nat>, above: seq<nat>, n: nat, r: nat, c: nat)
    requires n > 0 && was != [] && Value(was[1..]) == n * Value(above) + r && c == r * BASE + was[0]
    ensures Value(was) == n * Value([c / n] + above) + c % n
  {
    var a := Value(above);
    assert ([c / n] + above)[1..] == above;
    DivMod(c, n);
    MulAdd(n, c / n, BASE * a);
    MulSwap(n, BASE, a);
    MulAdd(BASE, n * a, r);
  }

  /** Down to limb `i`: the quotient so far, and the remainder as carried to the next limb. */
  ghost predicate Dividing(now: seq<nat>, was: seq<nat>, i: nat, n: nat, c: nat) {
    && i <= |now| == |was| && Limbs(now) && Limbs(was) && now[..i] == was[..i]
    && exists r: nat :: r < n && c == r * BASE && Value(was[i..]) == n * Value(now[i..]) + r
  }

  lemma {:induction false} DivideStarts(was: seq<nat>, n: nat)
    requires Limbs(was) && n > 0
    ensures Dividing(was, was, |was|, n, 0)
  {
    assert was[|was|..] == [];
    assert 0 == 0 * BASE && Value([]) == n * Value([]) + 0;
  }

  lemma {:induction false} DivideOne(now: seq<nat>, was: seq<nat>, i: nat, n: nat, c: nat)
    requires Dividing(now, was, i + 1, n, c) && i < |now| && n > 0
    ensures c + now[i] < n * BASE
    ensures var c2 := c + now[i];
            Dividing(now[i := c2 / n], was, i, n, (c2 % n) * BASE)
  {
    hide Value;
    var r: nat :| r < n && c == r * BASE && Value(was[i + 1..]) == n * Value(now[i + 1..]) + r;
    assert now[i] == was[i] by { assert now[..i + 1][i] == was[..i + 1][i]; }
    var c2 := c + now[i];
    MulLe(r + 1, n, BASE);
    QuotientBound(c2, n, BASE);
    assert was[i..][1..] == was[i + 1..];
    DivideStep(was[i..], now[i + 1..], n, r, c2);
    var next := now[i := c2 / n];
    assert next[i..] == [c2 / n] + now[i + 1..];
    assert next[..i] == now[..i + 1][..i] && was[..i] == was[..i + 1][..i];
    DivMod(c2, n);
  }

  lemma {:induction false} DivideEnds(now: seq<nat>, was: seq<nat>, n: nat, c: nat)
    requires Dividing(now, was, 0, n, c) && n > 0
    ensures Value(now) == Value(was) / n && Limbs(now)
  {
    var r: nat :| r < n && c == r * BASE && Value(was[0..]) == n * Value(now[0..]) + r;
    assert was[0..] == was && now[0..] == now;
    Quotient(Value(was), n, Value(now), r);
  }

  // ------------------------------------------------------------------------
  // Printing
  // ------------------------------------------------------------------------

  /** The digits of a number with one more limb below. */
  lemma {:induction false} LimbDigits(v: nat, d: nat)
    requires v > 0 && d < BASE
    ensures |Decimal(d)| <= 7
    ensures Decimal(d + BASE * v) == Decimal(v) + "0000000"[0..7 - |Decimal(d)|] + Decimal(d)
  {
    SevenDigits();
    DecimalJoin(v, d, 7);
    PaddedDecimal(d, 7);
    assert Zeros(7 - |Decimal(d)|) == "0000000"[0..7 - |Decimal(d)|];
  }

  lemma {:induction false} SevenDigits()
    ensures Pow(10, 7) == BASE
  {
    assert Pow(10, 3) == 1000 && Pow(10, 4) == 10000;
    PowAdd(10, 3, 4);
  }
}
