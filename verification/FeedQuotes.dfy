/** The numbers of the feed: its anchors version by version, and that every amount can be quoted at its rates. */
module FeedQuotes {
  import opened Reals
  import opened Decimals
  import opened Routing
  import opened RateFeed
  import opened ContextRoutes
  import opened Service

  // ---------------------------------------------------------------- the anchors

  /** The anchors of the first version, in numbers. */
  lemma FirstAnchors()
    ensures Anchor(1, USD) == 0.9998 && Anchor(1, USDC) == 0.9999 && Anchor(1, EUR) == 0.92
    ensures Anchor(1, PHP) == 55.0055 && Anchor(1, AED) == 3.670734
  {
  }

  /** The anchors repeat every seven versions, backwards too, and over any seven they average one dollar and one dollar coin
      at par, 0.92 euros, 55 pesos and 3.67 dirhams. */
  lemma AnchorsGoRound(version: int, c: Currency)
    ensures Anchor(version + 7, c) == Anchor(version, c)
    ensures Anchor(version, c) + Anchor(version + 1, c) + Anchor(version + 2, c) + Anchor(version + 3, c)
      + Anchor(version + 4, c) + Anchor(version + 5, c) + Anchor(version + 6, c)
      == 7.0 * (match c case USD => 1.0 case USDC => 1.0 case EUR => 0.92 case PHP => 55.0 case AED => 3.67)
  {
    var k, b := Coefficient(c), BaseAnchor(c);
    SevenSteps(version, k);
    AnchorBy(version, c); AnchorBy(version + 1, c); AnchorBy(version + 2, c); AnchorBy(version + 3, c);
    AnchorBy(version + 4, c); AnchorBy(version + 5, c); AnchorBy(version + 6, c); AnchorBy(version + 7, c);
    assert b == match c case USD => 1.0 case USDC => 1.0 case EUR => 0.92 case PHP => 55.0 case AED => 3.67;
    SevenProducts(b / 10000.0, Wobble(version, k), Wobble(version + 1, k), Wobble(version + 2, k), Wobble(version + 3, k),
      Wobble(version + 4, k), Wobble(version + 5, k), Wobble(version + 6, k));
    hide Anchor, Wobble, Times, BaseAnchor, Coefficient;
  }

  lemma SevenProducts(b: real, w0: int, w1: int, w2: int, w3: int, w4: int, w5: int, w6: int)
    requires w0 + w1 + w2 + w3 + w4 + w5 + w6 == 0
    ensures Times(b, w0 as real) + Times(b, w1 as real) + Times(b, w2 as real) + Times(b, w3 as real)
      + Times(b, w4 as real) + Times(b, w5 as real) + Times(b, w6 as real) == 0.0
  {
    assert w6 as real == -(w0 as real + w1 as real + w2 as real + w3 as real + w4 as real + w5 as real);
  }

  /** How far an anchor stands from its reference, in hundredths of a per cent. */
  function Wobble(version: int, k: int): int { (version * k) % 7 - 3 }

  lemma AnchorBy(version: int, c: Currency)
    ensures Anchor(version, c) == BaseAnchor(c) + Times(BaseAnchor(c) / 10000.0, Wobble(version, Coefficient(c)) as real)
  {
    var b, w := BaseAnchor(c), Wobble(version, Coefficient(c)) as real;
    assert Anchor(version, c) == b * (1.0 + w / 10000.0);
    hide Anchor, Wobble, Coefficient, BaseAnchor;
    Spread(b, w);
  }

  lemma Spread(b: real, w: real)
    ensures b * (1.0 + w / 10000.0) == b + Times(b / 10000.0, w)
  {
    assert b * (w / 10000.0) == (b / 10000.0) * w;
  }

  lemma Residue(x: int, m: int)
    ensures (x + m) % 7 == (x % 7 + m) % 7
  {
  }

  /** The seven remainders come once each, whatever the step. */
  lemma SevenRemainders(r: int, k: int)
    requires 0 <= r < 7 && 1 <= k <= 5
    ensures r + (r + k) % 7 + (r + 2 * k) % 7 + (r + 3 * k) % 7 + (r + 4 * k) % 7 + (r + 5 * k) % 7 + (r + 6 * k) % 7 == 21
    ensures (r + 7 * k) % 7 == r
  {
    if k == 1 { StepsOfOne(r); } else if k == 2 { StepsOfTwo(r); } else if k == 3 { StepsOfThree(r); }
    else if k == 4 { StepsOfFour(r); } else { StepsOfFive(r); }
  }

  lemma StepsOfOne(r: int)
    requires 0 <= r < 7
    ensures r + (r + 1) % 7 + (r + 2) % 7 + (r + 3) % 7 + (r + 4) % 7 + (r + 5) % 7 + (r + 6) % 7 == 21 && (r + 7) % 7 == r
  {
  }

  lemma StepsOfTwo(r: int)
    requires 0 <= r < 7
    ensures r + (r + 2) % 7 + (r + 4) % 7 + (r + 6) % 7 + (r + 8) % 7 + (r + 10) % 7 + (r + 12) % 7 == 21 && (r + 14) % 7 == r
  {
  }

  lemma StepsOfThree(r: int)
    requires 0 <= r < 7
    ensures r + (r + 3) % 7 + (r + 6) % 7 + (r + 9) % 7 + (r + 12) % 7 + (r + 15) % 7 + (r + 18) % 7 == 21 && (r + 21) % 7 == r
  {
  }

  lemma StepsOfFour(r: int)
    requires 0 <= r < 7
    ensures r + (r + 4) % 7 + (r + 8) % 7 + (r + 12) % 7 + (r + 16) % 7 + (r + 20) % 7 + (r + 24) % 7 == 21 && (r + 28) % 7 == r
  {
  }

  lemma StepsOfFive(r: int)
    requires 0 <= r < 7
    ensures r + (r + 5) % 7 + (r + 10) % 7 + (r + 15) % 7 + (r + 20) % 7 + (r + 25) % 7 + (r + 30) % 7 == 21 && (r + 35) % 7 == r
  {
  }

  lemma Multiples(version: int, k: int)
    ensures (version + 1) * k == version * k + k && (version + 2) * k == version * k + 2 * k
    ensures (version + 3) * k == version * k + 3 * k && (version + 4) * k == version * k + 4 * k
    ensures (version + 5) * k == version * k + 5 * k && (version + 6) * k == version * k + 6 * k
    ensures (version + 7) * k == version * k + 7 * k
  {
  }

  lemma WobbleLater(version: int, k: int, i: int)
    requires 0 <= i <= 7 && (version + i) * k == version * k + i * k
    ensures Wobble(version + i, k) == ((version * k) % 7 + i * k) % 7 - 3
  {
    Residue(version * k, i * k);
  }

  lemma SevenSteps(version: int, k: int)
    requires 1 <= k <= 5
    ensures Wobble(version + 7, k) == Wobble(version, k)
    ensures Wobble(version, k) + Wobble(version + 1, k) + Wobble(version + 2, k) + Wobble(version + 3, k)
      + Wobble(version + 4, k) + Wobble(version + 5, k) + Wobble(version + 6, k) == 0
  {
    var r := (version * k) % 7;
    Multiples(version, k);
    WobbleLater(version, k, 1); WobbleLater(version, k, 2); WobbleLater(version, k, 3); WobbleLater(version, k, 4);
    WobbleLater(version, k, 5); WobbleLater(version, k, 6); WobbleLater(version, k, 7);
    assert Wobble(version, k) == r - 3;
    hide Wobble;
    SevenRemainders(r, k);
  }

  // ---------------------------------------------------------------- every amount can be quoted

  lemma UsdAnchors(version: int, t: Currency)
    requires t != USD
    ensures 0.9997 <= Anchor(version, USD) <= 1.0003 && 0.9197 <= Anchor(version, t) <= 55.02
  {
    AnchorBy(version, USD);
    AnchorBy(version, t);
    var u, w := Wobble(version, Coefficient(USD)), Wobble(version, Coefficient(t));
    assert -3 <= u <= 3 && -3 <= w <= 3;
    hide Anchor, Wobble, Coefficient;
  }

  lemma RatioFromUsd(q: real, a: real, b: real)
    requires 0.9997 <= a <= 1.0003 && 0.9197 <= b <= 55.02 && Times(q, a) == b
    ensures 0.919 <= q <= 55.1
  {
    ScaledBounds(a);
    hide Times;
    Cancel(0.919, q, a);
    Cancel(q, 55.1, a);
  }

  lemma ScaledBounds(a: real)
    requires 0.9997 <= a <= 1.0003
    ensures Times(0.919, a) <= 0.9197 && 55.02 <= Times(55.1, a)
  {
  }

  lemma Close38(x: real)
    requires 0.5 <= x <= 100.0
    ensures 0.99999 * x <= InContext(x) <= 1.00001 * x
  {
    hide RoundPositive;
    RoundingIsClose(PRECISION, x);
  }

  /** The rates from the dollar, in the program's own arithmetic. */
  lemma FeedRatesFromUsd(version: int, t: Currency)
    requires t != USD
    ensures 0.9 <= FeedRateInContext(version, USD, t, 0.999) <= 55.2
  {
    var a, b := Anchor(version, USD), Anchor(version, t);
    UsdAnchors(version, t);
    assert AnchorsOf(version)[USD] == a && AnchorsOf(version)[t] == b;
    Quotient(b, a);
    hide InContext, Anchor, Times;
    var q := b / a;
    RatioFromUsd(q, a, b);
    Close38(q);
    Close38(InContext(q) * 0.999);
  }

  lemma QuotedBounds(amount: int, rate: real)
    requires 1 <= amount < 1_000_000_000_000_000_000_000_000 && 0.9 <= rate <= 55.2
    ensures 0.000000009 <= Times(amount as real / 100000000.0, rate) <= 552_000_000_000_000_000.0
  {
    var x := amount as real / 100000000.0;
    Commutes(x, rate);
    assert Times(x, 0.9) == x * 0.9 && Times(x, 55.2) == x * 55.2;
    Commutes(x, 0.9);
    Commutes(x, 55.2);
    hide Times;
    TimesOrdered(0.9, rate, x);
    TimesOrdered(rate, 55.2, x);
  }

  /** Every amount that an account can hold, of twenty-four digits, can be quoted at every rate of the feed. */
  lemma EveryAmountIsQuotable(version: int, t: Currency, amount: int)
    requires t != USD && 1 <= amount < 1_000_000_000_000_000_000_000_000
    ensures Quotable(amount, FeedRateInContext(version, USD, t, 0.999))
  {
    var rate := FeedRateInContext(version, USD, t, 0.999);
    FeedRatesFromUsd(version, t);
    hide FeedRateInContext;
    QuotedBounds(amount, rate);
    QuoteFits(amount, rate);
  }

  lemma QuoteFits(amount: int, rate: real)
    requires 0.9 <= rate <= 55.2
    requires 0.000000009 <= Times(amount as real / 100000000.0, rate) <= 552_000_000_000_000_000.0
    ensures Quotable(amount, rate)
  {
    var x := Times(amount as real / 100000000.0, rate);
    RoundingIsClose(AMBIENT_DIGITS, x);
    hide RoundPositive;
    assert QuotedAmount(amount, rate) == RoundPositive(AMBIENT_DIGITS, x);
    hide Times, QuotedAmount;
  }
}
