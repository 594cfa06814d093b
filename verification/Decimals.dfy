/** Decimal texts, and their product rounded to the longer operand's number of places. */
module Decimals {
  import opened Basics

  /** A text the decimal library rejects, or coef / 10^places written with `places` digits after the point. */
  datatype Literal = Unreadable | Literal(coef: int, places: nat)

  const ONE := Literal(100, 2)

  function Pow10(n: nat): (r: nat)
    ensures r >= 1
  {
    if n == 0 then 1 else 10 * Pow10(n - 1)
  }

  lemma {:induction false} Pow10Sum(a: nat, b: nat)
    ensures Pow10(a + b) == Pow10(a) * Pow10(b)
  {
    if a > 0 {
      Pow10Sum(a - 1, b);
      assert 10 * (Pow10(a - 1) * Pow10(b)) == (10 * Pow10(a - 1)) * Pow10(b);
    }
  }

  // ---- Rounding ---------------------------------------------------------------------------------------------

  /** q * unit is the multiple of unit nearest to n; of two equally near ones q is even. */
  predicate Nearest(n: int, unit: int, q: int) {
    && unit > 0
    && -unit <= 2 * (n - q * unit) <= unit
    && (2 * (n - q * unit) == unit || 2 * (n - q * unit) == -unit ==> q % 2 == 0)
  }

  function HalfEven(n: int, unit: int): (q: int)
    requires unit > 0
    ensures Nearest(n, unit, q)
  {
    var low, rest := n / unit, n % unit;
    assert n == low * unit + rest;
    assert (low + 1) * unit == low * unit + unit;
    if 2 * rest < unit || (2 * rest == unit && low % 2 == 0) then low else low + 1
  }

  lemma NearestIsUnique(n: int, unit: int, q: int, q': int)
    requires unit > 0 && Nearest(n, unit, q) && Nearest(n, unit, q')
    ensures q == q'
  {
    if q < q' {
      Apart(unit, q, q');
    } else if q' < q {
      Apart(unit, q', q);
    }
  }

  lemma NotSmaller(a: int, b: int, unit: int)
    requires a <= b && unit > 0
    ensures a * unit <= b * unit
  {
    assert (b - a) * unit >= 0;
  }

  lemma Apart(unit: int, q: int, q': int)
    requires q < q' && unit > 0
    ensures q' * unit - q * unit >= unit
    ensures q' > q + 1 ==> q' * unit - q * unit >= 2 * unit
  {
    NotSmaller(q + 1, q', unit);
    assert (q + 1) * unit == q * unit + unit;
    if q' > q + 1 {
      NotSmaller(q + 2, q', unit);
      assert (q + 2) * unit == q * unit + 2 * unit;
    }
  }

  lemma NegatedProduct(q: int, unit: int)
    ensures (-q) * unit == -(q * unit)
  {
  }

  lemma NearestNegates(n: int, unit: int, q: int)
    requires Nearest(n, unit, q)
    ensures Nearest(-n, unit, -q)
  {
    NegatedProduct(q, unit);
  }

  /** Rounding treats a number and its opposite alike. */
  lemma RoundingIsOdd(n: int, unit: int)
    requires unit > 0
    ensures HalfEven(-n, unit) == -HalfEven(n, unit)
  {
    NearestNegates(n, unit, HalfEven(n, unit));
    NearestIsUnique(-n, unit, HalfEven(-n, unit), -HalfEven(n, unit));
  }

  // ---- The product ------------------------------------------------------------------------------------------

  function Max(a: nat, b: nat): nat { if a >= b then a else b }

  function Min(a: nat, b: nat): nat { if a <= b then a else b }

  /** None is the error of an operand that does not parse. */
  function Mul(a: Literal, b: Literal): (r: Option<Literal>)
    ensures r.None? <==> a.Unreadable? || b.Unreadable?
    ensures r.Some? ==>
              && r.value.Literal? && r.value.places == (if a.places >= b.places then a.places else b.places)
              && Nearest(a.coef * b.coef, Pow10(if a.places <= b.places then a.places else b.places), r.value.coef)
  {
    if a.Unreadable? || b.Unreadable? then None
    else Some(Literal(HalfEven(a.coef * b.coef, Pow10(Min(a.places, b.places))), Max(a.places, b.places)))
  }

  /** x / 10^places. */
  function Shift(x: real, places: nat): real {
    if places == 0 then x else Shift(x, places - 1) / 10.0
  }

  function Value(d: Literal): real
    requires d.Literal?
  {
    Shift(d.coef as real, d.places)
  }

  function Abs(x: real): real { if x < 0.0 then -x else x }

  /** Half a unit of the last of `places` decimal places. */
  function HalfUnit(places: nat): real {
    Shift(0.5, places)
  }

  lemma {:induction false} ShiftAdds(x: real, y: real, places: nat)
    ensures Shift(x + y, places) == Shift(x, places) + Shift(y, places)
  {
    if places > 0 { ShiftAdds(x, y, places - 1); }
  }

  lemma {:induction false} ShiftKeepsOrder(x: real, y: real, places: nat)
    ensures x <= y <==> Shift(x, places) <= Shift(y, places)
  {
    if places > 0 { ShiftKeepsOrder(x, y, places - 1); }
  }

  lemma {:induction false} ShiftNegates(x: real, places: nat)
    ensures Shift(-x, places) == -Shift(x, places)
  {
    if places > 0 { ShiftNegates(x, places - 1); }
  }

  lemma {:induction false} ShiftTwice(x: real, p: nat, q: nat)
    ensures Shift(x, p + q) == Shift(Shift(x, p), q)
  {
    if q > 0 { ShiftTwice(x, p, q - 1); }
  }

  lemma {:induction false} ShiftScales(x: real, y: real, p: nat)
    ensures Shift(x, p) * y == Shift(x * y, p)
  {
    if p > 0 {
      ShiftScales(x, y, p - 1);
      TenthOfProduct(Shift(x, p - 1), y);
    }
  }

  lemma TenthOfProduct(x: real, y: real)
    ensures (x / 10.0) * y == (x * y) / 10.0
  {
  }

  lemma {:induction false} ShiftUndoesPow10(y: real, x: real, places: nat)
    requires y == x * Pow10(places) as real
    ensures Shift(y, places) == x
    decreases places
  {
    if places > 0 {
      TenTimes(x, Pow10(places - 1));
      ShiftUndoesPow10(y, 10.0 * x, places - 1);
    }
  }

  lemma TenTimes(x: real, p: int)
    ensures x * (10 * p) as real == (10.0 * x) * p as real
  {
    assert (10 * p) as real == 10.0 * p as real;
  }

  /** The exact product, in two shifts: the digits that are dropped and those that are kept. */
  lemma ExactProduct(a: Literal, b: Literal)
    requires a.Literal? && b.Literal?
    ensures Value(a) * Value(b)
            == Shift(Shift((a.coef * b.coef) as real, Min(a.places, b.places)), Max(a.places, b.places))
  {
    var x, y := a.coef as real, b.coef as real;
    ProductShift(x, a.places, y, b.places);
    assert (a.coef * b.coef) as real == x * y;
    ShiftTwice(x * y, Min(a.places, b.places), Max(a.places, b.places));
    assert Min(a.places, b.places) + Max(a.places, b.places) == b.places + a.places;
  }

  lemma ProductShift(x: real, p: nat, y: real, q: nat)
    ensures Shift(x, p) * Shift(y, q) == Shift(x * y, q + p)
  {
    var t, z := x * Shift(y, q), x * y;
    ShiftScales(x, Shift(y, q), p);
    assert t == Shift(z, q) by {
      ShiftScales(y, x, q);
      assert t == Shift(y, q) * x && y * x == z;
    }
    ShiftTwice(z, q, p);
  }

  /** What rounding changes, in units of the last kept place. */
  lemma RoundingGap(n: int, places: nat)
    ensures var q := HalfEven(n, Pow10(places));
            && -0.5 <= q as real - Shift(n as real, places) <= 0.5
            && (q as real == Shift(n as real, places) <==> n % Pow10(places) == 0)
  {
    var unit := Pow10(places);
    var q := HalfEven(n, unit);
    var u, gap := unit as real, (q * unit - n) as real;
    assert (q * unit) as real == q as real * u;
    ShiftUndoesPow10((q * unit) as real, q as real, places);
    ShiftUndoesPow10(0.5 * u, 0.5, places);
    ShiftAdds(n as real, gap, places);
    ShiftNegates(0.5 * u, places);
    ShiftKeepsOrder(-(0.5 * u), gap, places);
    ShiftKeepsOrder(gap, 0.5 * u, places);
    ShiftIsZero(gap, places);
    DividesExactly(n, unit);
  }

  lemma {:induction false} ShiftIsZero(x: real, places: nat)
    ensures Shift(x, places) == 0.0 <==> x == 0.0
  {
    if places > 0 { ShiftIsZero(x, places - 1); }
  }

  lemma DividesExactly(n: int, unit: int)
    requires unit > 0
    ensures HalfEven(n, unit) * unit == n <==> n % unit == 0
  {
    if n % unit == 0 {
      assert n == (n / unit) * unit;
      NearestIsUnique(n, unit, HalfEven(n, unit), n / unit);
    } else if HalfEven(n, unit) * unit == n {
      MultipleHasNoRemainder(HalfEven(n, unit), unit);
    }
  }

  lemma MultipleHasNoRemainder(q: int, unit: int)
    requires unit > 0
    ensures (q * unit) % unit == 0
  {
    var n := q * unit;
    var low, rest := n / unit, n % unit;
    assert n == low * unit + rest;
    if q < low { Apart(unit, q, low); } else if low < q { Apart(unit, low, q); }
  }

  /** r is x * y up to h. */
  predicate Near(r: real, x: real, y: real, h: real) {
    Abs(r - x * y) <= h
  }

  /** The rounded product is within half a unit of the last kept place of the exact one. */
  lemma WithinHalfUnit(a: Literal, b: Literal, r: Literal)
    requires a.Literal? && b.Literal? && Mul(a, b) == Some(r)
    ensures r.Literal? && r.places == Max(a.places, b.places)
    ensures Near(Value(r), Value(a), Value(b), HalfUnit(r.places))
  {
    var q, exact := r.coef as real, Shift((a.coef * b.coef) as real, Min(a.places, b.places));
    ExactProduct(a, b);
    RoundingGap(a.coef * b.coef, Min(a.places, b.places));
    ShiftAdds(exact, q - exact, r.places);
    ShiftKeepsOrder(q - exact, 0.5, r.places);
    ShiftKeepsOrder(-0.5, q - exact, r.places);
    ShiftNegates(0.5, r.places);
  }

  lemma MulCommutes(a: Literal, b: Literal)
    ensures Mul(a, b) == Mul(b, a)
  {
    if a.Literal? && b.Literal? {
      assert a.coef * b.coef == b.coef * a.coef;
    }
  }

  /** Nothing is lost exactly when the digits to drop are zeros. */
  lemma ExactExactly(a: Literal, b: Literal, r: Literal)
    requires a.Literal? && b.Literal? && Mul(a, b) == Some(r)
    ensures r.Literal?
    ensures Value(r) == Value(a) * Value(b) <==> (a.coef * b.coef) % Pow10(Min(a.places, b.places)) == 0
  {
    var q, exact := r.coef as real, Shift((a.coef * b.coef) as real, Min(a.places, b.places));
    ExactProduct(a, b);
    RoundingGap(a.coef * b.coef, Min(a.places, b.places));
    ShiftKeepsOrder(q, exact, r.places);
    ShiftKeepsOrder(exact, q, r.places);
  }

  /** A whole factor loses nothing. */
  lemma WholeFactorIsExact(a: Literal, b: Literal, r: Literal)
    requires a.Literal? && b.Literal? && a.coef % Pow10(a.places) == 0 && Mul(a, b) == Some(r)
    ensures r.Literal? && Value(r) == Value(a) * Value(b)
  {
    var low, high := Min(a.places, b.places), a.places - Min(a.places, b.places);
    Pow10Sum(high, low);
    var whole := a.coef / Pow10(a.places);
    assert a.coef == whole * (Pow10(high) * Pow10(low));
    Regroup(whole, Pow10(high), Pow10(low), b.coef);
    MultipleHasNoRemainder(whole * Pow10(high) * b.coef, Pow10(low));
    ExactExactly(a, b, r);
  }

  lemma Regroup(w: int, h: int, l: int, b: int)
    ensures (w * (h * l)) * b == (w * h * b) * l
  {
  }

  /** v differs from b * u * f by at most h + |b| * h'. */
  predicate OffByTwo(v: real, b: real, u: real, f: real, h: real, h': real) {
    Abs(v - b * u * f) <= h + Abs(b) * h'
  }

  /** A balance valued through US dollars: one rounding for the cross rate, one for the value. */
  lemma TwoStageError(balance: Literal, usd: Literal, fiat: Literal, rate: Literal, value: Literal)
    requires balance.Literal? && usd.Literal? && fiat.Literal?
    requires Mul(usd, fiat) == Some(rate) && Mul(balance, rate) == Some(value)
    ensures rate.Literal? && value.Literal?
    ensures OffByTwo(Value(value), Value(balance), Value(usd), Value(fiat), HalfUnit(value.places),
                     HalfUnit(rate.places))
  {
    WithinHalfUnit(usd, fiat, rate);
    WithinHalfUnit(balance, rate, value);
    TwoGaps(Value(value), Value(balance), Value(rate), Value(usd), Value(fiat),
            HalfUnit(value.places), HalfUnit(rate.places));
  }

  lemma TwoGaps(v: real, b: real, r: real, u: real, f: real, h: real, h': real)
    requires Near(v, b, r, h) && Near(r, u, f, h')
    ensures OffByTwo(v, b, u, f, h, h')
  {
    ScaledGap(b, r - u * f, h');
    Spread(b, r, u, f);
    AddGaps(v, b * r, b * u * f, b * (r - u * f), h, Abs(b) * h');
  }

  lemma AddGaps(v: real, x: real, y: real, gap: real, h: real, h': real)
    requires Abs(v - x) <= h && gap == x - y && Abs(gap) <= h'
    ensures Abs(v - y) <= h + h'
  {
  }

  lemma Spread(b: real, r: real, u: real, f: real)
    ensures b * (r - u * f) == b * r - b * u * f
  {
    var m := u * f;
    assert b * (r - m) == b * r - b * m;
    assert b * m == b * u * f;
  }

  lemma ScaledGap(b: real, gap: real, bound: real)
    requires Abs(gap) <= bound
    ensures Abs(b * gap) <= Abs(b) * bound
  {
    if b >= 0.0 {
      NotLess(b, gap, bound);
      NotLess(b, -bound, gap);
    } else {
      NotLess(-b, gap, bound);
      NotLess(-b, -bound, gap);
    }
  }

  lemma NotLess(b: real, x: real, y: real)
    requires b >= 0.0 && x <= y
    ensures b * x <= b * y
  {
    assert b * (y - x) >= 0.0;
  }
}
