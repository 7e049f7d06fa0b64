/** Decimal numbers of a limited number of digits, rounded half to even, as a decimal context computes them. */
module Decimals {
  import opened Reals

  // ---------------------------------------------------------------- powers of ten

  function Ten(e: int): (p: real)
    ensures p > 0.0
    decreases if e < 0 then -e else e
  {
    if e == 0 then 1.0 else if e > 0 then 10.0 * Ten(e - 1) else Ten(e + 1) / 10.0
  }

  lemma TenStep(e: int)
    ensures Ten(e + 1) == 10.0 * Ten(e)
  {
  }

  lemma TenfoldTimes(x: real, y: real)
    ensures Times(10.0 * x, y) == 10.0 * Times(x, y)
  {
  }

  lemma {:induction false} TenProduct(e: int, n: nat)
    ensures Times(Ten(n), Ten(e)) == Ten(e + n)
  {
    if n == 0 {
      assert Ten(0) == 1.0;
      hide Ten;
      OneTimes(Ten(e));
    } else {
      TenProduct(e, n - 1);
      TenStep(e + n - 1);
      TenStep(n - 1);
      hide Ten, Times;
      TenfoldTimes(Ten(n - 1), Ten(e));
    }
  }

  lemma {:induction false} TenGrows(e: int, n: nat)
    ensures Ten(e) <= Ten(e + n)
  {
    if n > 0 {
      TenGrows(e, n - 1);
      TenStep(e + n - 1);
      hide Ten;
    }
  }

  lemma {:induction false} TenWhole(n: nat)
    ensures Ten(n) == Ten(n).Floor as real
  {
    if n > 0 {
      TenWhole(n - 1);
      assert Ten(n) == (10 * Ten(n - 1).Floor) as real;
    }
  }

  /** The exponent of the leading digit. */
  function Decade(x: real): (e: int)
    requires x > 0.0
    ensures Ten(e) <= x < Ten(e + 1)
    decreases if x < 1.0 then 1 else 0, if x < 1.0 then (1.0 / x).Floor else x.Floor
  {
    if x >= 10.0 then
      assert (x / 10.0).Floor < x.Floor;
      var e := Decade(x / 10.0);
      TenStep(e); TenStep(e + 1);
      e + 1
    else if x < 1.0 then
      SmallerInverse(x);
      var e := Decade(10.0 * x);
      TenStep(e - 1); TenStep(e);
      e - 1
    else
      TenStep(0);
      0
  }

  lemma SmallerInverse(x: real)
    requires 0.0 < x < 1.0
    ensures 10.0 * x < 1.0 ==> (1.0 / (10.0 * x)).Floor < (1.0 / x).Floor
    ensures (1.0 / x).Floor >= 0
  {
    var v := 1.0 / x;
    assert v * x == 1.0;
    assert v > 0.0;
    assert 1.0 / (10.0 * x) == v / 10.0 by { assert (v / 10.0) * (10.0 * x) == v * x; }
    if 10.0 * x < 1.0 { assert v > 10.0; }
  }

  /** The nearest integer, and the even one of two that are as near. */
  function HalfEven(x: real): int {
    var n := x.Floor;
    var rest := x - n as real;
    if rest < 0.5 || (rest == 0.5 && n % 2 == 0) then n else n + 1
  }

  lemma HalfEvenNear(x: real)
    ensures x - 0.5 <= HalfEven(x) as real <= x + 0.5
  {
  }

  lemma HalfEvenMonotone(x: real, y: real)
    requires x <= y
    ensures HalfEven(x) <= HalfEven(y)
  {
    assert x.Floor <= y.Floor;
  }

  lemma HalfEvenWhole(n: int)
    ensures HalfEven(n as real) == n
  {
    assert (n as real).Floor == n;
  }

  // ---------------------------------------------------------------- rounding to a number of digits

  /** The value of the last digit of a positive number. */
  function Quantum(digits: nat, x: real): (u: real)
    requires x > 0.0
    ensures u > 0.0
  {
    Ten(Decade(x) - digits + 1)
  }

  /** A positive number in a context: the last of its digits is rounded. */
  function RoundPositive(digits: nat, x: real): real
    requires x > 0.0
  {
    Times(HalfEven(x / Quantum(digits, x)) as real, Quantum(digits, x))
  }

  /** A number in a context; zero and the sign are kept. */
  function RoundTo(digits: nat, x: real): real {
    if x > 0.0 then RoundPositive(digits, x) else if x < 0.0 then -RoundPositive(digits, -x) else 0.0
  }

  /** In units of its last digit a positive number has as many digits before the point as the context. */
  lemma InQuanta(digits: nat, x: real)
    requires x > 0.0 && digits >= 1
    ensures Ten(digits - 1) <= x / Quantum(digits, x) < Ten(digits)
    ensures Times(Ten(digits - 1), Quantum(digits, x)) == Ten(Decade(x))
    ensures Times(Ten(digits), Quantum(digits, x)) == Ten(Decade(x) + 1)
  {
    var e := Decade(x);
    TenProduct(e - digits + 1, digits - 1);
    TenProduct(e - digits + 1, digits);
    Quotient(x, Quantum(digits, x));
    hide Times, Ten, Decade;
    Cancel(Ten(digits - 1), x / Quantum(digits, x), Quantum(digits, x));
    CancelStrict(x / Quantum(digits, x), Ten(digits), Quantum(digits, x));
  }

  lemma HalfEvenTen(n: nat)
    ensures HalfEven(Ten(n)) as real == Ten(n)
  {
    TenWhole(n);
    hide Ten;
    HalfEvenWhole(Ten(n).Floor);
  }

  /** In units of the last digit, rounding stays between the two powers of ten. */
  lemma HalfEvenStays(digits: nat, v: real)
    requires digits >= 1 && Ten(digits - 1) <= v < Ten(digits)
    ensures Ten(digits - 1) <= HalfEven(v) as real <= Ten(digits)
  {
    hide Ten, HalfEven;
    HalfEvenTen(digits - 1);
    HalfEvenTen(digits);
    HalfEvenMonotone(Ten(digits - 1), v);
    HalfEvenMonotone(v, Ten(digits));
  }

  /** Rounding stays within the decade, its upper end included. */
  lemma RoundingStays(digits: nat, x: real)
    requires x > 0.0 && digits >= 1
    ensures Ten(Decade(x)) <= RoundPositive(digits, x) <= Ten(Decade(x) + 1)
  {
    hide Times, Ten, Decade, HalfEven, Quantum;
    var u := Quantum(digits, x);
    InQuanta(digits, x);
    HalfEvenStays(digits, x / u);
    TimesOrdered(Ten(digits - 1), HalfEven(x / u) as real, u);
    TimesOrdered(HalfEven(x / u) as real, Ten(digits), u);
  }

  // ---------------------------------------------------------------- the error of one rounding

  lemma WithinHalf(h: real, v: real, u: real)
    requires u > 0.0 && v - 0.5 <= h <= v + 0.5
    ensures Times(v, u) - 0.5 * u <= Times(h, u) <= Times(v, u) + 0.5 * u
  {
    Shifted(v, u);
    hide Times;
    TimesOrdered(v - 0.5, h, u);
    TimesOrdered(h, v + 0.5, u);
  }

  lemma Shifted(v: real, u: real)
    ensures Times(v - 0.5, u) == Times(v, u) - 0.5 * u && Times(v + 0.5, u) == Times(v, u) + 0.5 * u
  {
  }

  lemma HundredThousand()
    ensures Ten(5) == 100000.0
  {
    assert Ten(0) == 1.0 && Ten(1) == 10.0 && Ten(2) == 100.0 && Ten(3) == 1000.0 && Ten(4) == 10000.0;
  }

  lemma QuantumIsSmall(digits: nat, x: real)
    requires x > 0.0 && digits >= 6
    ensures 100000.0 * Quantum(digits, x) <= x
  {
    hide Ten, Decade, Quantum;
    InQuanta(digits, x);
    HundredThousand();
    TenGrows(5, digits - 6);
    var u := Quantum(digits, x);
    Quotient(x, u);
    TimesOrdered(100000.0, x / u, u);
  }

  /** A rounding is off by at most half a unit of its last digit. */
  lemma RoundingError(digits: nat, x: real)
    requires x > 0.0 && digits >= 1
    ensures x - 0.5 * Quantum(digits, x) <= RoundPositive(digits, x) <= x + 0.5 * Quantum(digits, x)
    ensures Times(Ten(digits - 1), Quantum(digits, x)) <= x
  {
    var u := Quantum(digits, x);
    HalfEvenNear(x / u);
    InQuanta(digits, x);
    Quotient(x, u);
    hide Times, HalfEven, Quantum, Ten, Decade;
    WithinHalf(HalfEven(x / u) as real, x / u, u);
  }

  /** With six digits or more a rounding is off by at most one part in a hundred thousand. */
  lemma RoundingIsClose(digits: nat, x: real)
    requires x > 0.0 && digits >= 6
    ensures 0.99999 * x <= RoundPositive(digits, x) <= 1.00001 * x
  {
    var u := Quantum(digits, x);
    HalfEvenNear(x / u);
    QuantumIsSmall(digits, x);
    Quotient(x, u);
    hide Times, HalfEven, Quantum;
    WithinHalf(HalfEven(x / u) as real, x / u, u);
  }

  // ---------------------------------------------------------------- rounding keeps the order

  lemma DecadeMonotone(x: real, y: real)
    requires 0.0 < x <= y
    ensures Decade(x) <= Decade(y)
  {
    hide Ten;
    if Decade(y) < Decade(x) {
      TenGrows(Decade(y) + 1, Decade(x) - Decade(y) - 1);
      assert false;
    }
  }

  lemma SameDecadeMonotone(digits: nat, x: real, y: real)
    requires 0.0 < x <= y && Decade(x) == Decade(y)
    ensures RoundPositive(digits, x) <= RoundPositive(digits, y)
  {
    var u := Quantum(digits, x);
    assert u == Quantum(digits, y);
    hide HalfEven, Quantum, Times;
    QuotientMonotone(x, y, u);
    HalfEvenMonotone(x / u, y / u);
    TimesOrdered(HalfEven(x / u) as real, HalfEven(y / u) as real, u);
  }

  lemma RoundingMonotone(digits: nat, x: real, y: real)
    requires 0.0 < x <= y && digits >= 1
    ensures RoundPositive(digits, x) <= RoundPositive(digits, y)
  {
    hide RoundPositive, Ten, Decade;
    DecadeMonotone(x, y);
    if Decade(x) == Decade(y) {
      SameDecadeMonotone(digits, x, y);
    } else {
      RoundingStays(digits, x);
      RoundingStays(digits, y);
      TenGrows(Decade(x) + 1, Decade(y) - Decade(x) - 1);
    }
  }

  lemma RoundingPositive(digits: nat, x: real)
    requires x > 0.0 && digits >= 1
    ensures RoundPositive(digits, x) > 0.0
  {
    hide RoundPositive, Ten, Decade;
    RoundingStays(digits, x);
  }

  lemma RoundToOrdered(digits: nat, x: real, y: real)
    requires x <= y && digits >= 1
    ensures RoundTo(digits, x) <= RoundTo(digits, y)
  {
    hide RoundPositive;
    if x > 0.0 { RoundingMonotone(digits, x, y); }
    if y < 0.0 { RoundingMonotone(digits, -y, -x); }
    if x < 0.0 { RoundingPositive(digits, -x); }
    if y > 0.0 { RoundingPositive(digits, y); }
  }

  // ---------------------------------------------------------------- numbers that a context keeps

  /** `x` is written with at most `digits` digits: a whole coefficient `k` and an exponent. */
  ghost predicate FitsAs(digits: nat, x: real, k: int, e: int) {
    0 < k && k as real < Ten(digits) && x == Times(k as real, Ten(e))
  }

  ghost predicate Fits(digits: nat, x: real) { exists k, e :: FitsAs(digits, x, k, e) }

  lemma FitsPositive(digits: nat, x: real)
    requires Fits(digits, x)
    ensures x > 0.0
  {
    var k, e :| FitsAs(digits, x, k, e);
    TimesPositive(k as real, Ten(e));
  }

  /** The exponent of such a number is not below that of its last digit in the context. */
  lemma ExponentHigh(digits: nat, x: real, k: int, e: int)
    requires x > 0.0 && FitsAs(digits, x, k, e)
    ensures e >= Decade(x) - digits + 1
  {
    TimesStrict(k as real, Ten(digits), Ten(e));
    TenProduct(e, digits);
    hide Ten, Times, Decade;
    if e < Decade(x) - digits + 1 {
      TenGrows(e + digits, Decade(x) - e - digits);
      assert false;
    }
  }

  lemma WholeProduct(k: int, n: nat)
    ensures Times(k as real, Ten(n)) == (k * Ten(n).Floor) as real
  {
    TenWhole(n);
    hide Ten;
    assert k as real * Ten(n).Floor as real == (k * Ten(n).Floor) as real;
  }

  /** A number of at most that many digits is kept as it is. */
  lemma FittingStays(digits: nat, x: real)
    requires Fits(digits, x)
    ensures x > 0.0 && RoundPositive(digits, x) == x
  {
    FitsPositive(digits, x);
    var k, e :| FitsAs(digits, x, k, e);
    ExponentHigh(digits, x, k, e);
    var low := Decade(x) - digits + 1;
    TenProduct(low, e - low);
    assert Quantum(digits, x) == Ten(low);
    WholeProduct(k, e - low);
    var whole := k * Ten(e - low).Floor;
    hide Ten, Times, Decade, Quantum, HalfEven;
    Regroups(k as real, Ten(e - low), Ten(low));
    QuotientIs(x, Ten(low), whole as real);
    HalfEvenWhole(whole);
  }

  /** What a context returns has at most that many digits. */
  lemma RoundedFits(digits: nat, x: real)
    requires x > 0.0 && digits >= 1
    ensures Fits(digits, RoundPositive(digits, x))
  {
    hide Ten, Times, Decade, HalfEven;
    var u := Quantum(digits, x);
    InQuanta(digits, x);
    HalfEvenStays(digits, x / u);
    var h, low := HalfEven(x / u), Decade(x) - digits + 1;
    if h as real < Ten(digits) {
      assert FitsAs(digits, RoundPositive(digits, x), h, low);
    } else {
      OneFits(digits);
      OneTimes(Ten(Decade(x) + 1));
      assert FitsAs(digits, RoundPositive(digits, x), 1, Decade(x) + 1);
    }
  }

  lemma OneFits(digits: nat)
    requires digits >= 1
    ensures 1.0 < Ten(digits)
  {
    TenGrows(1, digits - 1);
    assert Ten(1) == 10.0;
  }

  /** Rounding twice is rounding once. */
  lemma RoundingTwice(digits: nat, x: real)
    requires digits >= 1
    ensures RoundTo(digits, RoundTo(digits, x)) == RoundTo(digits, x)
  {
    hide RoundPositive, Fits;
    if x > 0.0 {
      RoundedFits(digits, x);
      FittingStays(digits, RoundPositive(digits, x));
    } else if x < 0.0 {
      RoundedFits(digits, -x);
      FittingStays(digits, RoundPositive(digits, -x));
    }
  }

  /** A product has at most as many digits as its factors together. */
  lemma ProductFits(m: nat, n: nat, x: real, y: real)
    requires Fits(m, x) && Fits(n, y)
    ensures Fits(m + n, Times(x, y))
  {
    var k, e :| FitsAs(m, x, k, e);
    var l, f :| FitsAs(n, y, l, f);
    ProductFitsAs(m, n, x, y, k, e, l, f);
  }

  lemma ProductFitsAs(m: nat, n: nat, x: real, y: real, k: int, e: int, l: int, f: int)
    requires FitsAs(m, x, k, e) && FitsAs(n, y, l, f)
    ensures Fits(m + n, Times(x, y))
  {
    CoefficientsFit(m, n, k, l);
    TenAny(e, f);
    hide Ten, Times;
    Shuffle(k as real, Ten(e), l as real, Ten(f));
    assert FitsAs(m + n, Times(x, y), k * l, e + f);
  }

  lemma CoefficientsFit(m: nat, n: nat, k: int, l: int)
    requires 0 < k && k as real < Ten(m) && 0 < l && l as real < Ten(n)
    ensures 0 < k * l && (k * l) as real < Ten(m + n) && Times(k as real, l as real) == (k * l) as real
  {
    TenProduct(n, m);
    hide Ten;
    BothBelow(k as real, Ten(m), l as real, Ten(n));
    WholeTimes(k, l);
  }

  lemma WholeTimes(k: int, l: int)
    requires 0 < k && 0 < l
    ensures 0 < k * l && Times(k as real, l as real) == (k * l) as real
  {
  }

  lemma BothBelow(x: real, a: real, y: real, b: real)
    requires 0.0 < x < a && 0.0 < y < b
    ensures Times(x, y) < Times(a, b)
  {
    TimesStrict(x, a, y);
    TimesStrict(y, b, a);
    Commutes(a, y);
    Commutes(a, b);
  }

  lemma Shuffle(k: real, t: real, l: real, u: real)
    ensures Times(Times(k, t), Times(l, u)) == Times(Times(k, l), Times(t, u))
  {
    assert (k * t) * (l * u) == (k * l) * (t * u);
  }

  /** The product of any two powers of ten. */
  lemma TenAny(e: int, f: int)
    ensures Times(Ten(e), Ten(f)) == Ten(e + f)
  {
    if e >= 0 {
      TenProduct(f, e);
    } else {
      TenProduct(e + f, -e);
      TenProduct(e, -e);
      assert Ten(0) == 1.0;
      hide Ten, Times;
      Commutes(Ten(-e), Ten(e));
      Regroups(Ten(e), Ten(-e), Ten(e + f));
      OneTimes(Ten(e + f));
    }
  }

  lemma FitsMore(m: nat, n: nat, x: real)
    requires Fits(m, x) && m <= n
    ensures Fits(n, x)
  {
    TenGrows(m, n - m);
    hide Ten, Times;
    var k, e :| FitsAs(m, x, k, e);
    assert FitsAs(n, x, k, e);
  }

  // ---------------------------------------------------------------- what half to even means

  /** The whole numbers nearest to `x`, and the even one if there are two. */
  ghost predicate NearestEven(x: real, n: int) {
    && x - 0.5 <= n as real <= x + 0.5
    && (n as real == x - 0.5 || n as real == x + 0.5 ==> n % 2 == 0)
  }

  /** Rounding to a whole number gives the nearest, the even one of two, and nothing else. */
  lemma HalfEvenIsNearest(x: real, n: int)
    ensures NearestEven(x, n) <==> n == HalfEven(x)
  {
    assert x.Floor as real <= x < x.Floor as real + 1.0;
    assert NearestEven(x, n) ==> n == x.Floor || n == x.Floor + 1;
  }

  /** A positive number rounds to a multiple of the value of its last digit, and that multiple is the nearest. */
  lemma RoundsToNearest(digits: nat, x: real)
    requires x > 0.0
    ensures exists n: int :: RoundsBy(digits, x, n)
  {
    HalfEvenIsNearest(x / Quantum(digits, x), HalfEven(x / Quantum(digits, x)));
    assert RoundsBy(digits, x, HalfEven(x / Quantum(digits, x)));
  }

  ghost predicate RoundsBy(digits: nat, x: real, n: int)
    requires x > 0.0
  {
    NearestEven(x / Quantum(digits, x), n) && RoundTo(digits, x) == Times(n as real, Quantum(digits, x))
  }

  /** Of the whole numbers from a power of ten on, the last that is kept has that many digits. */
  lemma OneDigitMore(digits: nat)
    requires digits >= 1
    ensures RoundTo(digits, Ten(digits) - 1.0) == Ten(digits) - 1.0 && RoundTo(digits, Ten(digits) + 1.0) == Ten(digits)
  {
    OneFits(digits);
    TenWhole(digits);
    LastKept(digits);
    FirstRounded(digits);
  }

  lemma LastKept(digits: nat)
    requires 1.0 < Ten(digits) && Ten(digits) == Ten(digits).Floor as real
    ensures RoundTo(digits, Ten(digits) - 1.0) == Ten(digits) - 1.0
  {
    assert Ten(0) == 1.0;
    hide Ten, RoundPositive;
    var k := Ten(digits).Floor - 1;
    OneTimes(k as real);
    assert FitsAs(digits, Ten(digits) - 1.0, k, 0);
    FittingStays(digits, Ten(digits) - 1.0);
  }

  lemma FirstRounded(digits: nat)
    requires digits >= 1 && 1.0 < Ten(digits) && Ten(digits) == Ten(digits).Floor as real
    ensures RoundTo(digits, Ten(digits) + 1.0) == Ten(digits)
  {
    var x := Ten(digits) + 1.0;
    TenStep(digits);
    DecadeIs(x, digits);
    assert Quantum(digits, x) == Ten(1) == 10.0 by { assert Ten(0) == 1.0; }
    TenStep(digits - 1);
    TenWhole(digits - 1);
    assert x / 10.0 == Ten(digits - 1) + 0.1;
    assert Ten(digits - 1).Floor as real == Ten(digits - 1);
    assert HalfEven(x / 10.0) as real == Ten(digits - 1) by { NearlyWhole(Ten(digits - 1)); }
    assert Times(Ten(digits - 1), 10.0) == Ten(digits);
  }

  lemma NearlyWhole(w: real)
    requires w == w.Floor as real
    ensures HalfEven(w + 0.1) as real == w
  {
    assert (w + 0.1).Floor == w.Floor;
  }

  /** The exponent of the leading digit is the only one that fits. */
  lemma DecadeIs(x: real, e: int)
    requires x > 0.0 && Ten(e) <= x < Ten(e + 1)
    ensures Decade(x) == e
  {
    hide Ten;
    if Decade(x) < e {
      TenGrows(Decade(x) + 1, e - Decade(x) - 1);
      assert false;
    }
    if e < Decade(x) {
      TenGrows(e + 1, Decade(x) - e - 1);
      assert false;
    }
  }
}
