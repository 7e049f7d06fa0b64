/** The router in its own arithmetic: a decimal context of 38 digits, half to even (app/decimal_policy.py). */
module ContextRoutes {
  import opened Orders
  import opened Reals
  import opened Decimals
  import opened Routing
  import opened Walks
  import opened ExactRoutes
  import opened BoundedWalks
  import opened RateFeed
  import opened RoundedFeed

  const PRECISION: nat := 38

  function InContext(x: real): real { RoundTo(PRECISION, x) }

  /** The context is a monotone rounding, and close enough for the feed. */
  lemma ContextRounds()
    ensures MonotoneRounding(InContext) && Close(InContext)
  {
    hide RoundTo;
    forall x, y: real | x <= y ensures InContext(x) <= InContext(y) { RoundToOrdered(PRECISION, x, y); }
    forall x: real | x >= 0.0 ensures InContext(x) >= 0.0 { RoundToOrdered(PRECISION, 0.0, x); ZeroStays(); }
    forall x | InRange(x) ensures 0.99999 * x <= InContext(x) <= 1.00001 * x { ContextIsClose(x); }
  }

  lemma ZeroStays()
    ensures InContext(0.0) == 0.0
  {
  }

  lemma ContextIsClose(x: real)
    requires InRange(x)
    ensures 0.99999 * x <= InContext(x) <= 1.00001 * x
  {
    hide RoundPositive;
    RoundingIsClose(PRECISION, x);
  }

  // ---------------------------------------------------------------- the program's own arithmetic

  /** Products in the context are monotone, so the routes computed in it dominate all walks. */
  lemma ContextIsMonotone()
    ensures Monotone(Rounded(InContext))
  {
    hide InContext;
    ContextRounds();
    RoundedIsMonotone(InContext);
  }

  /** Exactly which graphs the program rejects: those with a walk of five hops that is worth more, product by product in
      the context, than every walk of at most four hops to the same currency. */
  lemma ContextRejectedIff(edges: seq<Edge>, version: int, s: Currency, r: Result<Routes>)
    requires AllValid(edges) && Computes(Rounded(InContext), edges, version, s, r)
    ensures r.Err? <==> exists hops, t :: LongWalkGains(Rounded(InContext), HopsOf(edges), s, hops, t)
  {
    hide InContext, Computes, LongWalkGains;
    ContextIsMonotone();
    RejectedIffLongWalkGains(Rounded(InContext), edges, version, s, r);
  }

  // ---------------------------------------------------------------- rates that leave room for exact products

  /** Five rates of this many digits multiply to a number that the context keeps. */
  const RATE_DIGITS: nat := 7

  /** Every rate is a whole number below ten million times a power of ten. */
  ghost predicate ShortRates(edges: seq<Edge>) {
    forall e | e in edges :: ValidRate(e) && Fits(RATE_DIGITS, e.rate.value)
  }

  ghost predicate ShortOffers(offers: seq<Hop>) { forall h | h in offers :: Fits(RATE_DIGITS, h.rate) }

  lemma ShortRatesOffer(edges: seq<Edge>)
    requires ShortRates(edges)
    ensures AllValid(edges) && ShortOffers(HopsOf(edges))
  {
    hide Fits;
    forall h | h in HopsOf(edges) ensures Fits(RATE_DIGITS, h.rate) {
      var i :| 0 <= i < |edges| && HopsOf(edges)[i] == h;
      assert edges[i] in edges;
    }
  }

  lemma OneFitsOneDigit()
    ensures Fits(1, 1.0)
  {
    OneFits(1);
    OneTimes(Ten(0));
    assert FitsAs(1, 1.0, 1, 0);
  }

  lemma KeptInContext(digits: nat, x: real)
    requires Fits(digits, x) && digits <= PRECISION
    ensures InContext(x) == x
  {
    hide Fits, RoundPositive;
    FitsMore(digits, PRECISION, x);
    FittingStays(PRECISION, x);
  }

  /** Along a walk of short rates the products in the context are the exact ones, and grow by a rate's digits a hop. */
  lemma {:induction false} FoldIsExact(offers: seq<Hop>, hops: seq<Hop>)
    requires ShortOffers(offers) && Over(offers, hops) && |hops| <= ROUNDS + 1
    ensures Fold(Rounded(InContext), hops) == Fold(Times, hops) && Fits(1 + RATE_DIGITS * |hops|, Fold(Times, hops))
  {
    hide InContext, Fits, Times;
    if hops == [] {
      OneFitsOneDigit();
    } else {
      var init, e := hops[..|hops| - 1], hops[|hops| - 1];
      assert e in hops;
      FoldIsExact(offers, init);
      ProductFits(1 + RATE_DIGITS * |init|, RATE_DIGITS, Fold(Times, init), e.rate);
      assert 1 + RATE_DIGITS * |init| + RATE_DIGITS == 1 + RATE_DIGITS * |hops|;
      KeptInContext(1 + RATE_DIGITS * |hops|, Times(Fold(Times, init), e.rate));
    }
  }

  lemma ShortRatesAgree(edges: seq<Edge>, s: Currency)
    requires ShortRates(edges)
    ensures AllValid(edges) && Agrees(Rounded(InContext), HopsOf(edges), s)
  {
    ShortRatesOffer(edges);
    hide InContext, ShortOffers, Fits, Fold;
    var offers := HopsOf(edges);
    forall hops, t | OfferedWalk(offers, s, hops, t) && |hops| <= ROUNDS + 1
      ensures Fold(Rounded(InContext), hops) == Fold(Times, hops)
    {
      FoldIsExact(offers, hops);
    }
  }

  /** With rates of at most seven digits the program rejects a graph if and only if a cycle reachable from the source
      multiplies to more than one, and what it publishes otherwise are the exact best routes at their exact products. */
  lemma ShortRatesAreExact(edges: seq<Edge>, version: int, s: Currency, r: Result<Routes>)
    requires ShortRates(edges) && Computes(Rounded(InContext), edges, version, s, r)
    ensures AllValid(edges) && (r.Err? <==> Arbitrage(HopsOf(edges), s))
    ensures r.Ok? ==>
      && (forall t | t != s :: t in r.value <==> exists p :: Path(HopsOf(edges), s, p, t))
      && forall t | t in r.value ::
        && BestRoute(HopsOf(edges), s, t, r.value[t].hops)
        && r.value[t].rate == Product(r.value[t].hops) && |r.value[t].hops| <= 4
  {
    hide InContext, Computes, Agrees, Arbitrage, Path, BestRoute, Product, ShortRates;
    ShortRatesAgree(edges, s);
    AgreementCarriesOver(Rounded(InContext), edges, version, s, r);
    RejectedIffArbitrage(edges, version, s, r);
    if r.Ok? { PublishedRoutesAreBest(edges, version, s, r); }
  }

  // ---------------------------------------------------------------- the feed in the context

  lemma RoundedTwice(x: real)
    ensures Rounded(InContext)(1.0, InContext(x)) == InContext(x)
  {
    hide RoundTo, Times;
    var y := InContext(x);
    OneTimes(y);
    RoundingTwice(PRECISION, x);
    assert InContext(y) == y;
    hide InContext;
    assert Rounded(InContext)(1.0, y) == InContext(Times(1.0, y));
  }

  /** The rate of an edge of the feed: the quotient of the anchors and its product with the factor, each rounded. */
  function FeedRateInContext(version: int, s: Currency, t: Currency, factor: real): real {
    InContext(InContext(AnchorsOf(version)[t] / AnchorsOf(version)[s]) * factor)
  }

  lemma FeedHopRate(version: int, h: Hop)
    requires AllValid(RoundedEdges(InContext, version)) && h in HopsOf(RoundedEdges(InContext, version)) && h.lp == "LP_A"
    ensures h.rate == FeedRateInContext(version, h.source, h.target, 0.999)
    ensures Rounded(InContext)(1.0, h.rate) == h.rate
  {
    hide InContext, GenerateEdges, AnchorsOf, Rounded;
    var edges := RoundedEdges(InContext, version);
    var i :| 0 <= i < |edges| && HopsOf(edges)[i] == h;
    assert edges[i] == RoundedEdge(InContext, AnchorsOf(version), GenerateEdges(version)[i]);
    RoundedTwice(InContext(AnchorsOf(version)[h.target] / AnchorsOf(version)[h.source]) * 0.999);
  }

  /** Generated and routed in the context, every version of the feed is accepted, and every route is the single LP_A hop
      at that hop's own rate: the rounded quotient of the anchors times 0.999, rounded. */
  lemma ContextFeedIsDirect(version: int, s: Currency, r: Result<Routes>)
    requires Computes(Rounded(InContext), RoundedEdges(InContext, version), version, s, r)
    ensures r.Ok? && AllValid(RoundedEdges(InContext, version))
    ensures DirectHops(Rounded(InContext), RoundedEdges(InContext, version), version, s, r.value)
    ensures forall t | t in r.value ::
      && |r.value[t].hops| == 1 && r.value[t].rate == r.value[t].hops[0].rate
      && r.value[t].rate == FeedRateInContext(version, s, t, 0.999)
  {
    hide InContext, Computes, RoundedEdges, GenerateEdges, Approximates, NearTimes, Close, FeedRateInContext;
    ContextRounds();
    RoundingIsNear(InContext, version);
    RoundedFeedIsDirect(Rounded(InContext), RoundedEdges(InContext, version), version, s, r);
    forall t | t in r.value
      ensures r.value[t].rate == r.value[t].hops[0].rate && r.value[t].rate == FeedRateInContext(version, s, t, 0.999)
    {
      assert DirectHop(Rounded(InContext), HopsOf(RoundedEdges(InContext, version)), version, s, t, r.value[t]);
      hide Rounded, DirectHops;
      FeedHopRate(version, r.value[t].hops[0]);
    }
  }

  // ---------------------------------------------------------------- a gain too small for the context

  /** A gain far below the last digit of one. */
  const TRACE: real := Ten(-40)

  lemma TraceIsSmall()
    ensures 0.0 < TRACE < 0.5 && Times(TRACE, Ten(PRECISION - 1)) < 0.5 && Times(1.0, Ten(PRECISION - 1)) == Ten(PRECISION - 1)
  {
    TenProduct(-40, 37);
    assert Ten(-1) == 0.1 && Ten(-2) == 0.01 && Ten(-3) == 0.001;
    TenGrows(-40, 37);
    hide Ten;
    assert Times(TRACE, Ten(37)) == Times(Ten(37), TRACE);
  }

  lemma WholeStays(w: real, x: real)
    requires w == w.Floor as real && w <= x < w + 0.5
    ensures HalfEven(x) as real == w
  {
    assert x.Floor == w.Floor;
  }

  lemma OneStays(x: real)
    requires 1.0 <= x <= 1.0 + TRACE
    ensures InContext(x) == 1.0
  {
    TraceIsSmall();
    assert Decade(x) == 0;
    InQuanta(PRECISION, x);
    Quotient(x, Quantum(PRECISION, x));
    TenWhole(PRECISION - 1);
    OneQuotient(x);
    WholeStays(Ten(PRECISION - 1), x / Quantum(PRECISION, x));
    assert Ten(0) == 1.0;
  }

  lemma OneQuotient(x: real)
    requires 1.0 <= x <= 1.0 + TRACE && Decade(x) == 0
    ensures Ten(PRECISION - 1) <= x / Quantum(PRECISION, x) < Ten(PRECISION - 1) + 0.5
  {
    var u := Quantum(PRECISION, x);
    TraceIsSmall();
    TenProduct(-37, 37);
    InQuanta(PRECISION, x);
    Quotient(x, u);
    assert Times(Ten(37), u) == 1.0 by { assert Ten(0) == 1.0; }
    assert Times(u, Ten(37)) == Times(Ten(37), u);
    hide Ten, Quantum, Decade;
    hide Times;
    Regroups(x / u, u, Ten(37));
    OneTimes(x / u);
    SumTimes(1.0, TRACE, Ten(37));
    OneTimes(Ten(37));
    TimesOrdered(x, 1.0 + TRACE, Ten(37));
  }

  const THERE: Edge := Edge(USD, EUR, "LP_A", Finite(1.0))

  const BACK: Edge := Edge(EUR, USD, "LP_A", Finite(1.0 + TRACE))

  lemma RelaxTwo(mul: Multiplication, best: Best, g: Hop, h: Hop)
    ensures Relax(mul, best, [g, h]) == RelaxEdge(mul, best, RelaxEdge(mul, best, best, g), h)
  {
    assert [g, h][..1] == [g] && [g][..0] == [];
    assert Relax(mul, best, [g]) == RelaxEdge(mul, best, best, g);
  }

  lemma ContextProducts()
    ensures Rounded(InContext)(1.0, 1.0) == 1.0 && Rounded(InContext)(1.0, 1.0 + TRACE) == 1.0
  {
    TraceIsSmall();
    OneStays(1.0);
    OneStays(1.0 + TRACE);
    hide InContext;
    assert Times(1.0, 1.0) == 1.0 && Times(1.0, 1.0 + TRACE) == 1.0 + TRACE;
    hide Times;
  }

  /** The search over the two edges: after one round nothing improves. */
  lemma TwoEdgeSearch(mul: Multiplication, g: Hop, h: Hop)
    requires g == Hop(EUR, USD, "LP_A", 1.0 + TRACE) && h == Hop(USD, EUR, "LP_A", 1.0)
    requires mul(1.0, 1.0) == 1.0 && mul(1.0, 1.0 + TRACE) == 1.0
    ensures Accepted(mul, Search(mul, [g, h], USD), [g, h])
  {
    var start: Best := Start(USD);
    var best: Best := map[USD := Candidate(1.0, []), EUR := Candidate(1.0, [h])];
    RelaxTwo(mul, start, g, h);
    RelaxTwo(mul, best, g, h);
    assert [] + [h] == [h];
    assert Relax(mul, start, [g, h]) == best;
    KeyLessIsTotal();
    assert !KeyLess(HopKey([h] + [g]), HopKey([]));
    assert Relax(mul, best, [g, h]) == best;
    hide Relax;
    assert Rounds(mul, start, [g, h], 0) == start;
    assert Rounds(mul, start, [g, h], 1) == best && Rounds(mul, start, [g, h], 2) == best;
    FixpointStays(mul, start, [g, h], 1, ROUNDS);
  }

  /** In the context the equivalence with a profitable cycle fails: this graph has one, and is accepted. */
  lemma ContextMissesArbitrage(version: int, r: Result<Routes>)
    requires Computes(Rounded(InContext), [THERE, BACK], version, USD, r)
    ensures AllValid([THERE, BACK]) && Arbitrage(HopsOf([THERE, BACK]), USD) && r.Ok?
  {
    TraceIsSmall();
    ContextProducts();
    var h, g := HopOf(THERE), HopOf(BACK);
    var offers := HopsOf([THERE, BACK]);
    assert offers == [h, g];
    TinyArbitrage(h, g);
    TwoEdgeCollapse(h, g);
    var chosen :| IsCollapse(offers, chosen) && r == Decide(Rounded(InContext), chosen, version, USD);
    hide InContext, IsCollapse, Search, Accepted;
    CollapseUnique(offers, offers, chosen, [g, h]);
    TwoEdgeSearch(Rounded(InContext), g, h);
  }

  lemma TwoEdgeCollapse(h: Hop, g: Hop)
    requires g == Hop(EUR, USD, "LP_A", 1.0 + TRACE) && h == Hop(USD, EUR, "LP_A", 1.0)
    ensures IsCollapse([h, g], [g, h])
  {
    StringLessIsTotal();
    assert StringLess("EUR", "USD");
    assert [g, h][0] == g && [g, h][1] == h;
  }

  lemma TinyArbitrage(h: Hop, g: Hop)
    requires g == Hop(EUR, USD, "LP_A", 1.0 + TRACE) && h == Hop(USD, EUR, "LP_A", 1.0)
    ensures Arbitrage([h, g], USD)
  {
    TraceIsSmall();
    ProductConcat([h], [g]);
    SingleProduct(h);
    SingleProduct(g);
    assert [h] + [g] == [h, g];
    assert Walk(USD, [h, g], USD) && Walk(USD, [], USD);
    assert ProfitableCycle([h, g], USD, [], USD, [h, g]);
  }

  /** The context keeps every whole number of 38 digits and is the first to round one of 39. */
  lemma ContextHas38Digits()
    ensures InContext(Ten(38) - 1.0) == Ten(38) - 1.0 && InContext(Ten(38) + 1.0) == Ten(38)
  {
    OneDigitMore(38);
    hide Ten, RoundTo;
  }
}
