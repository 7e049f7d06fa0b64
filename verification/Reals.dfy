/** Products and quotients of real numbers, stated once so that other proofs need no nonlinear arithmetic. */
module Reals {

  function Times(x: real, y: real): real { x * y }

  lemma TimesOrdered(x: real, y: real, a: real)
    requires x <= y && a > 0.0
    ensures Times(x, a) <= Times(y, a)
  {
  }

  lemma TimesStrict(x: real, y: real, a: real)
    requires x < y && a > 0.0
    ensures Times(x, a) < Times(y, a)
  {
  }

  lemma TimesPositive(x: real, y: real)
    requires x > 0.0 && y > 0.0
    ensures Times(x, y) > 0.0
  {
  }

  lemma Commutes(x: real, y: real)
    ensures Times(x, y) == Times(y, x)
  {
  }

  lemma Regroups(x: real, y: real, z: real)
    ensures Times(Times(x, y), z) == Times(x, Times(y, z))
  {
    assert x * y * z == x * (y * z);
  }

  lemma OneTimes(x: real)
    ensures Times(1.0, x) == x && Times(x, 1.0) == x
  {
  }

  lemma Cancel(x: real, y: real, a: real)
    requires a > 0.0 && Times(x, a) <= Times(y, a)
    ensures x <= y
  {
    assert (y - x) * a >= 0.0;
  }

  lemma CancelStrict(x: real, y: real, a: real)
    requires a > 0.0 && Times(x, a) < Times(y, a)
    ensures x < y
  {
    if x >= y { TimesOrdered(y, x, a); }
  }

  lemma Quotient(x: real, u: real)
    requires u > 0.0
    ensures Times(x / u, u) == x
  {
  }

  lemma QuotientIs(x: real, u: real, q: real)
    requires u > 0.0 && x == Times(q, u)
    ensures x / u == q
  {
    Quotient(x, u);
    hide Times;
    Cancel(x / u, q, u);
    Cancel(q, x / u, u);
  }

  lemma QuotientMonotone(x: real, y: real, u: real)
    requires x <= y && u > 0.0
    ensures x / u <= y / u
  {
    Quotient(x, u);
    Quotient(y, u);
    hide Times;
    Cancel(x / u, y / u, u);
  }

  lemma SumTimes(x: real, y: real, a: real)
    ensures Times(x + y, a) == Times(x, a) + Times(y, a)
  {
  }
}
