/** Rounding and precision (backend/common/money.py). */
module Money {
  /** Money is counted in ten-thousandths, shares in hundred-millionths. */
  const MONEY_PLACES: nat := 4
  const SHARE_PLACES: nat := 8
  const SHARE_UNIT: int := 100000000

  /** A decimal numeral: `digits` units of ten to the power minus `places`. */
  datatype Decimal = Decimal(digits: int, places: nat)

  /** The exact decimal for an amount of money, and for a share count. */
  function OfMoney(units: int): Decimal { Decimal(units, MONEY_PLACES) }

  function OfShares(units: int): Decimal { Decimal(units, SHARE_PLACES) }

  function Pow10(k: nat): (p: int)
    ensures p > 0
  {
    if k == 0 then 1 else 10 * Pow10(k - 1)
  }

  /** r is n/d rounded to the nearest integer, an exact tie going to the even neighbour. */
  ghost predicate IsHalfEven(n: int, d: int, r: int)
    requires d > 0
  {
    && -d <= 2 * (n - r * d) <= d
    && (2 * (n - r * d) == d || 2 * (n - r * d) == -d ==> r % 2 == 0)
  }

  /** roundTiesToEven of n/d (section 4.3.1 of IEEE 754-2008). */
  function RoundHalfEven(n: int, d: int): int
    requires d > 0
  {
    var q, rest := n / d, n % d;
    if 2 * rest < d || (2 * rest == d && q % 2 == 0) then q else q + 1
  }

  lemma {:induction false} RoundNearest(n: int, d: int)
    requires d > 0
    ensures IsHalfEven(n, d, RoundHalfEven(n, d))
  {
    var q, rest := n / d, n % d;
    assert n == q * d + rest;
    assert (q + 1) * d == q * d + d;
  }

  /** `value.quantize(...)`: the numeral's value in units of ten to the power minus `places`. */
  function Quantize(x: Decimal, places: nat): int
  {
    if x.places <= places then x.digits * Pow10(places - x.places)
    else RoundHalfEven(x.digits, Pow10(x.places - places))
  }

  function QuantizeMoney(x: Decimal): int { Quantize(x, MONEY_PLACES) }

  function QuantizeShares(x: Decimal): int { Quantize(x, SHARE_PLACES) }

  lemma {:induction false} MulMonotone(a: int, b: int, d: int)
    requires a <= b && d >= 0
    ensures a * d <= b * d
  {
  }

  lemma {:induction false} ProductOrder(a: int, b: int, d: int)
    requires d > 0
    ensures a < b ==> a * d + d <= b * d
    ensures a + 1 < b ==> a * d + 2 * d <= b * d
    ensures a + 1 == b ==> a * d + d == b * d
  {
    assert (a + 1) * d == a * d + d;
    assert (a + 2) * d == a * d + 2 * d;
    if a < b {
      MulMonotone(a + 1, b, d);
    }
    if a + 1 < b {
      MulMonotone(a + 2, b, d);
    }
  }

  /** The rounding rule leaves exactly one answer. */
  lemma {:induction false} HalfEvenUnique(n: int, d: int, r: int, s: int)
    requires d > 0
    requires IsHalfEven(n, d, r) && IsHalfEven(n, d, s)
    ensures r == s
  {
    ProductOrder(r, s, d);
    ProductOrder(s, r, d);
  }

  lemma {:induction false} RoundMonotone(m: int, n: int, d: int)
    requires d > 0 && m <= n
    ensures RoundHalfEven(m, d) <= RoundHalfEven(n, d)
  {
    RoundNearest(m, d);
    RoundNearest(n, d);
    if m < n {
      ProductOrder(RoundHalfEven(n, d), RoundHalfEven(m, d), d);
    }
  }

  /** Half-even rounding has no bias of sign. */
  lemma {:induction false} RoundSymmetric(n: int, d: int)
    requires d > 0
    ensures RoundHalfEven(-n, d) == -RoundHalfEven(n, d)
  {
    var r := RoundHalfEven(n, d);
    RoundNearest(n, d);
    RoundNearest(-n, d);
    assert -r * d == -(r * d);
    HalfEvenUnique(-n, d, RoundHalfEven(-n, d), -r);
  }

  function Negated(x: Decimal): Decimal { Decimal(-x.digits, x.places) }

  /** So the two legs of a movement cancel after rounding as they did before it. */
  lemma {:induction false} QuantizeNegated(x: Decimal, places: nat)
    ensures Quantize(Negated(x), places) == -Quantize(x, places)
    ensures x.digits >= 0 ==> Quantize(x, places) >= 0
  {
    if x.places <= places {
      var p := Pow10(places - x.places);
      assert (-x.digits) * p == -(x.digits * p);
      if x.digits >= 0 {
        assert x.digits * p >= 0;
      }
    } else {
      var p := Pow10(x.places - places);
      RoundSymmetric(x.digits, p);
      if x.digits >= 0 {
        RoundExact(0, p);
        RoundMonotone(0 * p, x.digits, p);
      }
    }
  }

  lemma {:induction false} RoundExact(k: int, d: int)
    requires d > 0
    ensures RoundHalfEven(k * d, d) == k
  {
  }

  lemma {:induction false} RoundRescaled(n: int, d: int, c: int)
    requires d > 0 && c > 0
    ensures d * c > 0 && RoundHalfEven(n * c, d * c) == RoundHalfEven(n, d)
  {
    var r := RoundHalfEven(n, d);
    assert d * c > 0;
    RoundNearest(n, d);
    RoundNearest(n * c, d * c);
    var gap := n - r * d;
    assert n * c - r * (d * c) == gap * c by {
      assert r * (d * c) == (r * d) * c;
      assert (n - r * d) * c == n * c - (r * d) * c;
    }
    ScaledBound(gap, d, c);
    HalfEvenUnique(n * c, d * c, RoundHalfEven(n * c, d * c), r);
  }

  lemma {:induction false} ScaledBound(gap: int, d: int, c: int)
    requires c > 0 && -d <= 2 * gap <= d
    ensures -(d * c) <= 2 * (gap * c) <= d * c
    ensures 2 * (gap * c) == d * c ==> 2 * gap == d
    ensures 2 * (gap * c) == -(d * c) ==> 2 * gap == -d
  {
  }

  /**
   * The rounded pro-rata share of a non-negative whole never exceeds it and is never negative:
   * what keeps a partial sell from removing more cost than the holding carries.
   */
  lemma {:induction false} ProRataWithin(basis: int, part: int, whole: int)
    requires 0 <= part <= whole && whole > 0 && basis >= 0
    ensures 0 <= RoundHalfEven(basis * part, whole) <= basis
  {
    RoundExact(0, whole);
    RoundExact(basis, whole);
    assert 0 <= basis * part <= basis * whole by {
      assert basis * (whole - part) >= 0;
    }
    RoundMonotone(0 * whole, basis * part, whole);
    RoundMonotone(basis * part, basis * whole, whole);
  }

  /** The same number written with one more trailing zero. */
  function WithZero(x: Decimal): Decimal { Decimal(10 * x.digits, x.places + 1) }

  /** Trailing zeros never change what a numeral quantizes to: "25" and "25.0000" are one amount. */
  lemma {:induction false} QuantizeIgnoresZeros(x: Decimal, places: nat)
    ensures Quantize(WithZero(x), places) == Quantize(x, places)
  {
    if x.places < places {
      var p := Pow10(places - x.places - 1);
      assert Pow10(places - x.places) == 10 * p;
      assert (10 * x.digits) * p == x.digits * (10 * p);
    } else if x.places == places {
      assert Pow10(1) == 10 * Pow10(0);
      RoundExact(x.digits, 10);
    } else {
      RoundRescaled(x.digits, Pow10(x.places - places), 10);
    }
  }

  lemma {:induction false} QuantizeExact(units: int, places: nat)
    ensures Quantize(Decimal(units, places), places) == units
  {
  }

  lemma {:induction false} MulAssoc(a: int, b: int, c: int)
    ensures (a * b) * c == a * (b * c)
  {
  }

  lemma {:induction false} MulAdd(a: int, b: int, c: int)
    ensures (a + b) * c == a * c + b * c
  {
  }

  lemma {:induction false} MulSub(a: int, b: int, c: int)
    ensures (a - b) * c == a * c - b * c
    ensures (-a) * c == -(a * c)
  {
  }

  lemma {:induction false} PowPlus(a: nat, b: nat)
    ensures Pow10(a + b) == Pow10(a) * Pow10(b)
  {
    if a == 0 {
    } else {
      PowPlus(a - 1, b);
      assert Pow10(a + b) == 10 * Pow10(a - 1 + b);
      assert 10 * (Pow10(a - 1) * Pow10(b)) == (10 * Pow10(a - 1)) * Pow10(b);
    }
  }

  /** Whatever the numeral's own places, quantizing takes its value to the nearest unit, ties to even. */
  lemma {:induction false} QuantizeNearest(x: Decimal, places: nat)
    ensures IsHalfEven(x.digits * Pow10(places), Pow10(x.places), Quantize(x, places))
  {
    if x.places <= places {
      PowPlus(places - x.places, x.places);
      MulAssoc(x.digits, Pow10(places - x.places), Pow10(x.places));
    } else {
      PowPlus(x.places - places, places);
      RoundRescaled(x.digits, Pow10(x.places - places), Pow10(places));
      RoundNearest(x.digits * Pow10(places), Pow10(x.places));
    }
  }

  /** Money to four places, shares to eight. */
  lemma {:induction false} QuantaAre(x: Decimal)
    ensures IsHalfEven(x.digits * 10000, Pow10(x.places), QuantizeMoney(x))
    ensures IsHalfEven(x.digits * 100000000, Pow10(x.places), QuantizeShares(x))
  {
    QuantizeNearest(x, MONEY_PLACES);
    QuantizeNearest(x, SHARE_PLACES);
    assert Pow10(4) == 10 * Pow10(3) == 100 * Pow10(2) == 1000 * Pow10(1) == 10000;
    assert Pow10(8) == 10 * Pow10(7) == 100 * Pow10(6) == 1000 * Pow10(5) == 100000000;
  }
}
