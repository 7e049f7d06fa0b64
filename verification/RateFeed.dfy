/** The simulated rates, with exact arithmetic. */
module RateFeed {
  import opened Reals
  import opened Routing
  import opened Walks
  import opened ExactRoutes

  function BaseAnchor(c: Currency): real {
    match c
    case USD => 1.0
    case USDC => 1.0
    case EUR => 0.92
    case PHP => 55.0
    case AED => 3.67
  }

  function Coefficient(c: Currency): int {
    match c case USD => 1 case USDC => 2 case EUR => 3 case PHP => 4 case AED => 5
  }

  /** The remainder is taken by a positive modulus, where Python and Dafny agree. */
  function Anchor(version: int, c: Currency): (a: real)
    ensures a > 0.0
  {
    BaseAnchor(c) * (1.0 + ((version * Coefficient(c)) % 7 - 3) as real / 10000.0)
  }

  /** The anchors of a version, as a table of positive values. */
  type Anchors = m: map<Currency, real> | forall c :: c in m && m[c] > 0.0
    witness map c | true :: 1.0

  function AnchorsOf(version: int): Anchors { map c | true :: Anchor(version, c) }

  function Rate(anchors: Anchors, s: Currency, t: Currency, factor: real): real {
    anchors[t] / anchors[s] * factor
  }

  function LpEdges(anchors: Anchors, s: Currency, t: Currency): seq<Edge> {
    if s == t then []
    else [
      Edge(s, t, "LP_A", Finite(Rate(anchors, s, t, 0.999))),
      Edge(s, t, "LP_B", Finite(Rate(anchors, s, t, 0.998))),
      Edge(s, t, "LP_C", Finite(Rate(anchors, s, t, 0.997)))
    ]
  }

  function EdgesFrom(anchors: Anchors, s: Currency, targets: seq<Currency>): seq<Edge> {
    if targets == [] then [] else LpEdges(anchors, s, targets[0]) + EdgesFrom(anchors, s, targets[1..])
  }

  function EdgesAmong(anchors: Anchors, sources: seq<Currency>): seq<Edge> {
    if sources == [] then [] else EdgesFrom(anchors, sources[0], CURRENCIES) + EdgesAmong(anchors, sources[1..])
  }

  function GenerateEdges(version: int): seq<Edge> { EdgesAmong(AnchorsOf(version), CURRENCIES) }

  // ---------------------------------------------------------------- the generated offers

  lemma EveryCurrency(c: Currency)
    ensures c in CURRENCIES
  {
    match c
    case USD => assert CURRENCIES[0] == c;
    case USDC => assert CURRENCIES[1] == c;
    case EUR => assert CURRENCIES[2] == c;
    case PHP => assert CURRENCIES[3] == c;
    case AED => assert CURRENCIES[4] == c;
  }

  lemma LpEdgeEnds(anchors: Anchors, s: Currency, t: Currency, e: Edge)
    requires e in LpEdges(anchors, s, t)
    ensures e.source == s && e.target == t
  {
  }

  lemma {:induction false} EdgesFromMembers(anchors: Anchors, s: Currency, targets: seq<Currency>, e: Edge)
    ensures e in EdgesFrom(anchors, s, targets) <==> e.target in targets && e in LpEdges(anchors, s, e.target)
  {
    if targets != [] {
      EdgesFromMembers(anchors, s, targets[1..], e);
      assert targets == [targets[0]] + targets[1..];
      if e in LpEdges(anchors, s, targets[0]) {
        LpEdgeEnds(anchors, s, targets[0], e);
      }
    }
  }

  lemma {:induction false} EdgesAmongMembers(anchors: Anchors, sources: seq<Currency>, e: Edge)
    ensures e in EdgesAmong(anchors, sources) <==> e.source in sources && e in LpEdges(anchors, e.source, e.target)
  {
    if sources != [] {
      EdgesAmongMembers(anchors, sources[1..], e);
      assert sources == [sources[0]] + sources[1..];
      EdgesFromMembers(anchors, sources[0], CURRENCIES, e);
      EveryCurrency(e.target);
      if e in LpEdges(anchors, sources[0], e.target) {
        LpEdgeEnds(anchors, sources[0], e.target, e);
      }
    }
  }

  /** An offer at `factor` of the ratio of the anchors. */
  ghost predicate Priced(anchors: Anchors, h: Hop, factor: real) {
    h.source != h.target && h.rate * anchors[h.source] == anchors[h.target] * factor
  }

  ghost predicate FeedOffer(anchors: Anchors, h: Hop) {
    || (h.lp == "LP_A" && Priced(anchors, h, 0.999))
    || (h.lp == "LP_B" && Priced(anchors, h, 0.998))
    || (h.lp == "LP_C" && Priced(anchors, h, 0.997))
  }

  lemma QuotientIffProduct(r: real, x: real, y: real, f: real)
    requires y > 0.0
    ensures r == x / y * f <==> r * y == x * f
  {
    assert x / y * y == x;
    assert (x / y * f) * y == (x / y * y) * f;
    assert (r - x / y * f) * y == r * y - x * f;
  }

  lemma RatePriced(anchors: Anchors, h: Hop, factor: real)
    requires h.source != h.target
    ensures h.rate == Rate(anchors, h.source, h.target, factor) <==> Priced(anchors, h, factor)
  {
    QuotientIffProduct(h.rate, anchors[h.target], anchors[h.source], factor);
  }

  lemma LpEdgesPriced(anchors: Anchors, h: Hop)
    ensures Edge(h.source, h.target, h.lp, Finite(h.rate)) in LpEdges(anchors, h.source, h.target) <==> FeedOffer(anchors, h)
  {
    if h.source != h.target {
      RatePriced(anchors, h, 0.999);
      RatePriced(anchors, h, 0.998);
      RatePriced(anchors, h, 0.997);
      LpEdgesNamed(anchors, h.source, h.target, Edge(h.source, h.target, h.lp, Finite(h.rate)));
    }
  }

  lemma LpEdgesNamed(anchors: Anchors, s: Currency, t: Currency, e: Edge)
    requires s != t && e.source == s && e.target == t
    ensures e in LpEdges(anchors, s, t) <==>
      || (e.lp == "LP_A" && e.rate == Finite(Rate(anchors, s, t, 0.999)))
      || (e.lp == "LP_B" && e.rate == Finite(Rate(anchors, s, t, 0.998)))
      || (e.lp == "LP_C" && e.rate == Finite(Rate(anchors, s, t, 0.997)))
  {
    var row := LpEdges(anchors, s, t);
    assert e in row <==> e == row[0] || e == row[1] || e == row[2];
  }

  lemma ProductPositiveParts(r: real, y: real)
    requires y > 0.0 && r * y > 0.0
    ensures r > 0.0
  {
  }

  lemma FeedOfferPositive(anchors: Anchors, h: Hop)
    requires FeedOffer(anchors, h)
    ensures h.rate > 0.0
  {
    ProductPositiveParts(h.rate, anchors[h.source]);
  }

  /** The feed of a version: valid rates, and exactly the priced offers. */
  lemma FeedOffers(version: int)
    ensures AllValid(GenerateEdges(version))
    ensures forall h :: h in HopsOf(GenerateEdges(version)) <==> FeedOffer(AnchorsOf(version), h)
  {
    var anchors, edges := AnchorsOf(version), GenerateEdges(version);
    forall e | e in edges ensures ValidRate(e) {
      EdgesAmongMembers(anchors, CURRENCIES, e);
      var h := Hop(e.source, e.target, e.lp, e.rate.value);
      LpEdgesPriced(anchors, h);
      FeedOfferPositive(anchors, h);
    }
    var offers := HopsOf(edges);
    forall h: Hop ensures h in offers <==> FeedOffer(anchors, h) {
      var e := Edge(h.source, h.target, h.lp, Finite(h.rate));
      LpEdgesPriced(anchors, h);
      EdgesAmongMembers(anchors, CURRENCIES, e);
      EveryCurrency(h.source);
      HopInHops(edges, h);
    }
  }

  lemma HopInHops(edges: seq<Edge>, h: Hop)
    requires AllValid(edges)
    ensures h in HopsOf(edges) <==> Edge(h.source, h.target, h.lp, Finite(h.rate)) in edges
  {
    var e, hops := Edge(h.source, h.target, h.lp, Finite(h.rate)), HopsOf(edges);
    if e in edges {
      var i :| 0 <= i < |edges| && edges[i] == e;
      assert hops[i] == h;
    }
    if h in hops {
      var i :| 0 <= i < |edges| && hops[i] == h;
      assert ValidRate(edges[i]);
      assert edges[i] == e;
    }
  }

  // ---------------------------------------------------------------- walks telescope

  /** The offers of a feed, apart from how they were generated. */
  ghost predicate Feed(anchors: Anchors, offers: seq<Hop>) {
    forall h :: h in offers <==> FeedOffer(anchors, h)
  }

  function Power(n: nat): (p: real)
    ensures 0.0 < p <= 1.0 && (n >= 1 ==> p <= 0.999) && (n >= 2 ==> p < 0.999)
  {
    if n == 0 then 1.0 else 0.999 * Power(n - 1)
  }

  /** Each offer costs at least a thousandth against the anchors. */
  lemma OfferAgainstAnchor(anchors: Anchors, h: Hop)
    requires FeedOffer(anchors, h)
    ensures h.rate * anchors[h.source] <= anchors[h.target] * 0.999 && h.rate > 0.0
  {
    FeedOfferPositive(anchors, h);
  }

  lemma TelescopeStep(p: real, p': real, a: real, u: real, t: real, rate: real, power: real, power': real)
    requires p * a <= u * power && rate * u <= t * 0.999 && rate > 0.0 && power > 0.0
    requires p' == p * rate && power' == 0.999 * power
    ensures p' * a <= t * power'
  {
    assert (p * a) * rate <= (u * power) * rate;
    assert (rate * u) * power <= (t * 0.999) * power;
    assert (p * rate) * a == (p * a) * rate;
    assert (u * power) * rate == (rate * u) * power;
    assert (t * 0.999) * power == t * (0.999 * power);
  }

  /** The product of a walk over the anchor of its start, kept apart from what they are. */
  ghost predicate Within(product: real, a: real, b: real, power: real) { product * a <= b * power }

  lemma HopWithin(p: real, p': real, a: real, u: real, t: real, rate: real, n: nat)
    requires rate * u <= t * 0.999 && rate > 0.0 && p' == p * rate
    requires Within(p, a, u, Power(n))
    ensures Within(p', a, t, Power(n + 1))
  {
    TelescopeStep(p, p', a, u, t, rate, Power(n), Power(n + 1));
  }

  lemma OfferWithin(anchors: Anchors, a: real, p: real, p': real, e: Hop, n: nat)
    requires FeedOffer(anchors, e) && p' == p * e.rate
    requires Within(p, a, anchors[e.source], Power(n))
    ensures Within(p', a, anchors[e.target], Power(n + 1))
  {
    OfferAgainstAnchor(anchors, e);
    HopWithin(p, p', a, anchors[e.source], anchors[e.target], e.rate, n);
  }

  /** A walk of `n` hops earns at most the ratio of its ends' anchors, times 0.999 to the `n`. */
  lemma {:induction false} WalkAgainstAnchor(anchors: Anchors, offers: seq<Hop>, s: Currency, hops: seq<Hop>, t: Currency)
    requires Feed(anchors, offers) && Walk(s, hops, t) && Over(offers, hops)
    ensures Within(Product(hops), anchors[s], anchors[t], Power(|hops|))
    decreases |hops|
  {
    if hops != [] {
      var init, e := SplitLast(offers, s, hops, t);
      WalkAgainstAnchor(anchors, offers, s, init, e.source);
      ProductExtend(init, e);
      OfferWithin(anchors, anchors[s], Product(init), Product(hops), e, |init|);
    }
  }

  lemma AtMostOne(x: real, a: real, p: real)
    requires a > 0.0 && x * a <= a * p && p <= 1.0
    ensures x <= 1.0
  {
    ScaledDown(a, p);
    NotScaledUp(a, x);
  }

  lemma FeedHasNoArbitrage(anchors: Anchors, offers: seq<Hop>, s: Currency)
    requires Feed(anchors, offers)
    ensures !Arbitrage(offers, s)
  {
    forall prefix, x, cycle ensures !ProfitableCycle(offers, s, prefix, x, cycle) {
      if Walk(x, cycle, x) && Over(offers, cycle) {
        WalkAgainstAnchor(anchors, offers, x, cycle, x);
        AtMostOne(Product(cycle), anchors[x], Power(|cycle|));
      }
    }
  }

  // ---------------------------------------------------------------- the direct route wins

  function Direct(anchors: Anchors, s: Currency, t: Currency): Hop {
    Hop(s, t, "LP_A", Rate(anchors, s, t, 0.999))
  }

  lemma DirectIsPath(anchors: Anchors, offers: seq<Hop>, s: Currency, t: Currency)
    requires Feed(anchors, offers) && s != t
    ensures Path(offers, s, [Direct(anchors, s, t)], t)
    ensures Product([Direct(anchors, s, t)]) * anchors[s] == anchors[t] * 0.999
  {
    var d := Direct(anchors, s, t);
    QuotientIffProduct(d.rate, anchors[t], anchors[s], 0.999);
    assert FeedOffer(anchors, d);
    SingleProduct(d);
  }

  lemma SingleProduct(h: Hop)
    ensures Product([h]) == h.rate
  {
    assert [h] == [] + [h];
    ProductExtend([], h);
  }

  lemma LesserProduct(x: real, y: real, a: real)
    requires a > 0.0 && x * a < y * a
    ensures x < y
  {
    assert (y - x) * a > 0.0;
  }

  lemma BelowAnchorRatio(x: real, y: real, a: real, b: real, power: real)
    requires a > 0.0 && b > 0.0 && power < 0.999
    requires Within(x, a, b, power) && y * a == b * 0.999
    ensures x < y
  {
    ScaleKeepsOrder(0.999, power, b);
    LesserProduct(x, y, a);
  }

  lemma PowerFalls(n: nat)
    requires n >= 2
    ensures Power(n) < 0.999
  {
  }

  lemma LongerEarnsLess(anchors: Anchors, offers: seq<Hop>, s: Currency, t: Currency, hops: seq<Hop>)
    requires Feed(anchors, offers) && s != t && Walk(s, hops, t) && Over(offers, hops) && |hops| >= 2
    ensures Product(hops) < Product([Direct(anchors, s, t)])
  {
    hide Feed, Product, Walk, Over, Path, Within, Power, Direct;
    DirectIsPath(anchors, offers, s, t);
    WalkAgainstAnchor(anchors, offers, s, hops, t);
    PowerFalls(|hops|);
    BelowAnchorRatio(Product(hops), Product([Direct(anchors, s, t)]), anchors[s], anchors[t], Power(|hops|));
  }

  lemma OtherProviderEarnsLess(anchors: Anchors, offers: seq<Hop>, h: Hop)
    requires Feed(anchors, offers) && h in offers && h.lp != "LP_A"
    ensures h.rate < Product([Direct(anchors, h.source, h.target)])
  {
    DirectIsPath(anchors, offers, h.source, h.target);
    LesserProduct(h.rate, Product([Direct(anchors, h.source, h.target)]), anchors[h.source]);
  }

  lemma BestIsDirect(anchors: Anchors, offers: seq<Hop>, s: Currency, t: Currency, hops: seq<Hop>)
    requires Feed(anchors, offers) && s != t && BestRoute(offers, s, t, hops)
    ensures hops == [Direct(anchors, s, t)]
  {
    DirectIsPath(anchors, offers, s, t);
    assert Product(hops) >= Product([Direct(anchors, s, t)]);
    if |hops| >= 2 {
      LongerEarnsLess(anchors, offers, s, t, hops);
      assert false;
    }
    assert At(s, hops, 0) == s && At(s, hops, |hops|) == t;
    var h := hops[0];
    assert hops == [h] && h in offers;
    SingleProduct(h);
    if h.lp != "LP_A" {
      OtherProviderEarnsLess(anchors, offers, h);
      assert false;
    }
    assert FeedOffer(anchors, h);
    QuotientIffProduct(h.rate, anchors[t], anchors[s], 0.999);
  }

  function DirectQuote(version: int, s: Currency, t: Currency): RouteQuote {
    var hop := Direct(AnchorsOf(version), s, t);
    RouteQuote(version, t, hop.rate, [hop])
  }

  /** The routes of a version of the feed. */
  function DirectRoutes(version: int, s: Currency): Routes {
    map t | t != s :: DirectQuote(version, s, t)
  }

  /** Every version of the feed is accepted, and its routes are the single LP_A hops. */
  lemma FeedRoutesAreDirect(version: int, s: Currency, r: Result<Routes>)
    requires Computes(Times, GenerateEdges(version), version, s, r)
    ensures r == Ok(DirectRoutes(version, s))
  {
    var edges, anchors := GenerateEdges(version), AnchorsOf(version);
    FeedOffers(version);
    var offers := HopsOf(edges);
    FeedHasNoArbitrage(anchors, offers, s);
    RejectedIffArbitrage(edges, version, s, r);
    PublishedRoutesAreBest(edges, version, s, r);
    TimesMonotone();
    RoutesDominateAllWalks(Times, edges, version, s, r);
    RoutesAre(version, s, anchors, offers, r.value);
  }

  lemma QuoteIsDirect(version: int, s: Currency, t: Currency, offers: seq<Hop>, q: RouteQuote)
    requires Feed(AnchorsOf(version), offers) && s != t && BestRoute(offers, s, t, q.hops)
    requires q.version == version && q.target == t && q.rate == Product(q.hops)
    ensures q == DirectQuote(version, s, t)
  {
    BestIsDirect(AnchorsOf(version), offers, s, t, q.hops);
    SingleProduct(Direct(AnchorsOf(version), s, t));
  }

  lemma RoutesAre(version: int, s: Currency, anchors: Anchors, offers: seq<Hop>, routes: Routes)
    requires anchors == AnchorsOf(version) && Feed(anchors, offers)
    requires forall t | t != s :: t in routes <==> exists p :: Path(offers, s, p, t)
    requires forall t | t in routes ::
      t != s && routes[t].version == version && routes[t].target == t && BestRoute(offers, s, t, routes[t].hops)
      && routes[t].rate == Product(routes[t].hops)
    ensures routes == DirectRoutes(version, s)
  {
    hide Feed, BestRoute, Path, Product, DirectQuote, AnchorsOf;
    forall t | t != s ensures t in routes && routes[t] == DirectQuote(version, s, t) {
      DirectIsPath(anchors, offers, s, t);
      QuoteIsDirect(version, s, t, offers, routes[t]);
    }
    assert routes.Keys == DirectRoutes(version, s).Keys;
  }
}
