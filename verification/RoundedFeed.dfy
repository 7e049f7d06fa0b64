/** The simulated rates under rounding: nothing depends on the arithmetic being exact. */
module RoundedFeed {
  import opened Orders
  import opened Reals
  import opened Routing
  import opened Walks
  import opened RateFeed

  /** A value off by at most one part in ten thousand; a 38-digit context keeps every result far closer. */
  predicate Near(x: real, exact: real) { 0.9999 * exact <= x <= 1.0001 * exact }

  /** The numbers the feed computes with: ratios of anchors, rates, and products of two rates. */
  predicate InRange(x: real) { 0.01 <= x <= 100.0 }

  ghost predicate NearTimes(mul: Multiplication) {
    forall x, y | x > 0.0 && y > 0.0 && InRange(Times(x, y)) :: Near(mul(x, y), Times(x, y))
  }

  ghost predicate Ranged(anchors: Anchors) { forall c :: 0.9 <= anchors[c] <= 60.0 }

  predicate NearEdge(e: Edge, exact: Edge) {
    && e.source == exact.source && e.target == exact.target && e.lp == exact.lp
    && e.rate.Finite? && exact.rate.Finite? && Near(e.rate.value, exact.rate.value)
  }

  /** The edges as generated by a rounding context. */
  ghost predicate Approximates(edges: seq<Edge>, exact: seq<Edge>) {
    |edges| == |exact| && forall i | 0 <= i < |edges| :: NearEdge(edges[i], exact[i])
  }

  // ---------------------------------------------------------------- the offers

  /** A rate against the ratio of two anchors: an LP_A rate, and any other. */
  ghost predicate LegRate(r: real, a: real, b: real) { 0.9989 * b <= Times(r, a) <= 0.9991 * b }

  ghost predicate LesserRate(r: real, a: real, b: real) { 0.0 <= Times(r, a) <= 0.9981 * b }

  ghost predicate NearOffer(anchors: Anchors, h: Hop) {
    && h.source != h.target && h.rate > 0.0
    && (if h.lp == "LP_A" then LegRate(h.rate, anchors[h.source], anchors[h.target])
        else LesserRate(h.rate, anchors[h.source], anchors[h.target]))
  }

  ghost predicate Offered(offers: seq<Hop>, s: Currency, t: Currency) {
    exists h :: h in offers && PairOf(h) == (s, t) && h.lp == "LP_A"
  }

  ghost predicate NearFeed(anchors: Anchors, offers: seq<Hop>) {
    && Ranged(anchors)
    && (forall h | h in offers :: NearOffer(anchors, h))
    && (forall s, t | s != t :: Offered(offers, s, t))
  }

  /** A value near the exact one, taken `a` times, is near what the exact one comes to. */
  lemma NearScaled(x: real, exact: real, a: real, product: real)
    requires a > 0.0 && Near(x, exact) && Times(exact, a) == product
    ensures 0.9999 * product <= Times(x, a) <= 1.0001 * product
  {
    NearFactors(exact, a);
    hide Times;
    TimesOrdered(0.9999 * exact, x, a);
    TimesOrdered(x, 1.0001 * exact, a);
  }

  lemma NearFactors(x: real, a: real)
    ensures Times(0.9999 * x, a) == 0.9999 * Times(x, a) && Times(1.0001 * x, a) == 1.0001 * Times(x, a)
  {
  }

  /** What an offer comes to, in the anchor of its source, for each of the three factors. */
  lemma OfferProduct(anchors: Anchors, h: Hop) returns (product: real)
    requires FeedOffer(anchors, h)
    ensures Times(h.rate, anchors[h.source]) == product && h.source != h.target && h.rate > 0.0
    ensures if h.lp == "LP_A" then product == 0.999 * anchors[h.target] else 0.0 <= product <= 0.998 * anchors[h.target]
  {
    FeedOfferPositive(anchors, h);
    product := Times(h.rate, anchors[h.source]);
  }

  lemma BoundedBy(anchors: Anchors, h: Hop, product: real)
    requires 0.9999 * product <= Times(h.rate, anchors[h.source]) <= 1.0001 * product
    requires if h.lp == "LP_A" then product == 0.999 * anchors[h.target] else 0.0 <= product <= 0.998 * anchors[h.target]
    requires h.source != h.target && h.rate > 0.0
    ensures NearOffer(anchors, h)
  {
    hide Times;
  }

  lemma OfferIsNear(anchors: Anchors, h: Hop, exact: Hop)
    requires FeedOffer(anchors, exact) && PairOf(h) == PairOf(exact) && h.lp == exact.lp && Near(h.rate, exact.rate)
    ensures NearOffer(anchors, h)
  {
    hide FeedOffer, NearOffer, Times;
    var product := OfferProduct(anchors, exact);
    NearIsPositive(h.rate, exact.rate);
    NearScaled(h.rate, exact.rate, anchors[h.source], product);
    BoundedBy(anchors, h, product);
  }

  lemma NearIsPositive(x: real, exact: real)
    requires exact > 0.0 && Near(x, exact)
    ensures x > 0.0
  {
  }

  lemma AnchorsRanged(version: int)
    ensures Ranged(AnchorsOf(version))
  {
    forall c ensures 0.9 <= Anchor(version, c) <= 60.0 {
      var wobble := ((version * Coefficient(c)) % 7 - 3) as real / 10000.0;
      assert -0.0003 <= wobble <= 0.0003;
    }
  }

  lemma FeedIsNear(version: int, edges: seq<Edge>)
    requires Approximates(edges, GenerateEdges(version))
    ensures AllValid(edges) && NearFeed(AnchorsOf(version), HopsOf(edges))
  {
    var anchors, exact := AnchorsOf(version), GenerateEdges(version);
    AnchorsRanged(version);
    hide GenerateEdges, FeedOffer, NearOffer, Anchor, Ranged;
    FeedOffers(version);
    forall i | 0 <= i < |edges| ensures ValidRate(edges[i]) && NearOffer(anchors, HopOf(edges[i])) {
      assert NearEdge(edges[i], exact[i]);
      assert ValidRate(exact[i]);
      NearIsPositive(edges[i].rate.value, exact[i].rate.value);
      assert HopsOf(exact)[i] == HopOf(exact[i]);
      OfferIsNear(anchors, HopOf(edges[i]), HopOf(exact[i]));
    }
    forall s, t | s != t ensures Offered(HopsOf(edges), s, t) {
      DirectOffered(anchors, s, t);
      var i :| 0 <= i < |exact| && HopsOf(exact)[i] == Direct(anchors, s, t);
      assert NearEdge(edges[i], exact[i]);
      assert HopsOf(edges)[i] in HopsOf(edges);
    }
  }

  lemma DirectOffered(anchors: Anchors, s: Currency, t: Currency)
    requires s != t
    ensures FeedOffer(anchors, Direct(anchors, s, t))
  {
    QuotientIffProduct(Direct(anchors, s, t).rate, anchors[t], anchors[s], 0.999);
  }

  // ---------------------------------------------------------------- one LP_A hop for each pair

  lemma RatesCompare(x: real, y: real, a: real, b: real)
    requires a > 0.0 && b > 0.0 && LesserRate(x, a, b) && LegRate(y, a, b)
    ensures x < y
  {
    hide Times;
    CancelStrict(x, y, a);
  }

  lemma ChosenAreDirect(anchors: Anchors, offers: seq<Hop>, chosen: seq<Hop>, h: Hop)
    requires NearFeed(anchors, offers) && IsCollapse(offers, chosen) && h in chosen
    ensures h.lp == "LP_A" && NearOffer(anchors, h)
  {
    hide NearOffer;
    assert NearOffer(anchors, h);
    if h.lp != "LP_A" {
      assert h.source != h.target by { NearEnds(anchors, h); }
      assert Offered(offers, h.source, h.target);
      var d :| d in offers && PairOf(d) == (h.source, h.target) && d.lp == "LP_A";
      assert Dominates(h, d);
      Outbid(anchors, h, d);
    }
  }

  lemma NearEnds(anchors: Anchors, h: Hop)
    requires NearOffer(anchors, h)
    ensures h.source != h.target && h.rate > 0.0
  {
  }

  lemma Outbid(anchors: Anchors, h: Hop, d: Hop)
    requires NearOffer(anchors, h) && NearOffer(anchors, d) && PairOf(h) == PairOf(d) && h.lp != "LP_A" && d.lp == "LP_A"
    ensures h.rate < d.rate
  {
    RatesCompare(h.rate, d.rate, anchors[h.source], anchors[h.target]);
  }

  /** What a rounding search settles on: the source itself, and one LP_A hop for every other currency. */
  ghost predicate DirectBest(mul: Multiplication, chosen: seq<Hop>, s: Currency, best: Best) {
    && s in best && best[s] == Candidate(1.0, [])
    && forall t | t != s :: t in best && IsDirect(mul, chosen, s, t, best[t])
  }

  ghost predicate IsDirect(mul: Multiplication, chosen: seq<Hop>, s: Currency, t: Currency, c: Candidate) {
    |c.hops| == 1 && c.hops[0] in chosen && PairOf(c.hops[0]) == (s, t) && c.rate == mul(1.0, c.hops[0].rate)
  }

  /** The chosen edges, apart from how they were chosen. */
  ghost predicate Legs(anchors: Anchors, chosen: seq<Hop>) {
    && Ranged(anchors)
    && (forall h | h in chosen :: h.lp == "LP_A" && NearOffer(anchors, h))
    && (forall s, t | s != t :: Covers(chosen, (s, t)))
    && (forall g, h | g in chosen && h in chosen :: PairOf(g) == PairOf(h) ==> g == h)
  }

  lemma ChosenAreLegs(anchors: Anchors, offers: seq<Hop>, chosen: seq<Hop>)
    requires NearFeed(anchors, offers) && IsCollapse(offers, chosen)
    ensures Legs(anchors, chosen)
  {
    hide NearOffer, Covers;
    forall h | h in chosen ensures h.lp == "LP_A" && NearOffer(anchors, h) {
      ChosenAreDirect(anchors, offers, chosen, h);
    }
    forall s, t | s != t ensures Covers(chosen, (s, t)) {
      assert Offered(offers, s, t);
      var d :| d in offers && PairOf(d) == (s, t) && d.lp == "LP_A";
      assert Covers(chosen, PairOf(d));
    }
    TupleLessIsTotal();
    forall g, h | g in chosen && h in chosen && PairOf(g) == PairOf(h) ensures g == h {
      var i :| 0 <= i < |chosen| && chosen[i] == g;
      var j :| 0 <= j < |chosen| && chosen[j] == h;
    }
  }

  lemma LegsEnds(anchors: Anchors, chosen: seq<Hop>, s: Currency, t: Currency)
    requires Legs(anchors, chosen)
    ensures forall h | h in chosen :: h.source != h.target
    ensures s != t ==> exists h :: h in chosen && PairOf(h) == (s, t)
  {
    hide NearOffer;
    forall h | h in chosen ensures h.source != h.target { NearEnds(anchors, h); }
    if s != t { assert Covers(chosen, (s, t)); }
  }

  lemma FirstHop(mul: Multiplication, chosen: seq<Hop>, s: Currency, t: Currency, next: Best)
    requires Relaxed(mul, Start(s), chosen, next) && s != t
    requires exists h :: h in chosen && PairOf(h) == (s, t)
    ensures t in next && IsDirect(mul, chosen, s, t, next[t])
  {
    var h :| h in chosen && PairOf(h) == (s, t);
    assert h.source in Start(s);
    var e :| e in chosen && e.source in Start(s) && e.target == t && next[t] == Extend(mul, Start(s)[e.source], e);
    assert next[t].hops == [] + [e] == [e];
  }

  lemma SourceStays(mul: Multiplication, chosen: seq<Hop>, s: Currency, next: Best)
    requires Relaxed(mul, Start(s), chosen, next) && forall h | h in chosen :: h.source != h.target
    ensures s in next && next[s] == Candidate(1.0, [])
  {
    hide IsBetter;
    assert !FromEdge(mul, Start(s), chosen, s, next[s]);
  }

  lemma FirstRound(mul: Multiplication, anchors: Anchors, chosen: seq<Hop>, s: Currency)
    requires Legs(anchors, chosen)
    ensures DirectBest(mul, chosen, s, Relax(mul, Start(s), chosen))
  {
    hide Relax, Legs, IsDirect, Relaxed, Start;
    var next := Relax(mul, Start(s), chosen);
    RelaxIsRelaxed(mul, Start(s), chosen);
    LegsEnds(anchors, chosen, s, s);
    SourceStays(mul, chosen, s, next);
    forall t | t != s ensures t in next && IsDirect(mul, chosen, s, t, next[t]) {
      LegsEnds(anchors, chosen, s, t);
      FirstHop(mul, chosen, s, t, next);
    }
  }

  // ---------------------------------------------------------------- the second round changes nothing

  /** The rate of a direct route, against the ratio of two anchors. */
  ghost predicate RouteRate(m: real, a: real, b: real) { 0.9988 * b <= Times(m, a) <= 0.9993 * b && m > 0.0 }

  lemma DirectBounds(m: real, r: real, a: real, b: real)
    requires a > 0.0 && b > 0.0 && r > 0.0 && Near(m, Times(1.0, r)) && LegRate(r, a, b)
    ensures RouteRate(m, a, b)
  {
    OneTimes(r);
    hide Times;
    NearScaled(m, r, a, Times(r, a));
  }

  lemma DetourBound(m: real, d: real, r: real, a: real, u: real, b: real)
    requires a > 0.0 && u > 0.0 && b > 0.0 && r > 0.0
    requires Near(m, Times(d, r)) && RouteRate(d, a, u) && LegRate(r, u, b)
    ensures Below(m, a, b)
  {
    hide RouteRate, LegRate, Times, Near;
    DetourProduct(d, r, a, u, b);
    NearScaled(m, Times(d, r), a, Times(Times(d, r), a));
  }

  lemma Spread(t: real, a: real, b: real, low: real, high: real)
    requires 0.9 <= a <= 60.0 && 0.9 <= b <= 60.0 && 0.99 * b <= t <= b && low == 0.0148 * a && high == 67.0 * a
    ensures low <= t <= high
  {
  }

  lemma Bounds(a: real)
    ensures Times(0.0148, a) == 0.0148 * a && Times(67.0, a) == 67.0 * a
  {
  }

  /** A rate that is about the ratio of two anchors. */
  lemma RatioRange(p: real, a: real, b: real)
    requires 0.9 <= a <= 60.0 && 0.9 <= b <= 60.0 && 0.99 * b <= Times(p, a) <= b
    ensures 0.0148 <= p <= 67.0
  {
    hide Times;
    Bounds(a);
    Spread(Times(p, a), a, b, Times(0.0148, a), Times(67.0, a));
    Cancel(0.0148, p, a);
    Cancel(p, 67.0, a);
  }

  lemma LegRange(r: real, a: real, b: real)
    requires 0.9 <= a <= 60.0 && 0.9 <= b <= 60.0 && r > 0.0 && LegRate(r, a, b)
    ensures InRange(Times(1.0, r))
  {
    OneTimes(r);
    RatioRange(r, a, b);
  }

  lemma DetourProduct(d: real, r: real, a: real, u: real, b: real)
    requires r > 0.0 && RouteRate(d, a, u) && LegRate(r, u, b) && b > 0.0
    ensures 0.99 * b <= Times(Times(d, r), a) <= 0.9985 * b
  {
    RouteFactors(u, r);
    hide Times;
    TimesOrdered(0.9988 * u, Times(d, a), r);
    TimesOrdered(Times(d, a), 0.9993 * u, r);
    Regroups(d, a, r);
    Regroups(d, r, a);
    Commutes(a, r);
    Commutes(u, r);
  }

  lemma RouteFactors(u: real, r: real)
    ensures Times(0.9988 * u, r) == 0.9988 * Times(u, r) && Times(0.9993 * u, r) == 0.9993 * Times(u, r)
  {
  }

  lemma DetourRange(d: real, r: real, a: real, u: real, b: real)
    requires 0.9 <= a <= 60.0 && 0.9 <= b <= 60.0 && r > 0.0 && RouteRate(d, a, u) && LegRate(r, u, b)
    ensures InRange(Times(d, r))
  {
    hide Times, RouteRate, LegRate;
    DetourProduct(d, r, a, u, b);
    RatioRange(Times(d, r), a, b);
  }

  lemma LegIsRated(anchors: Anchors, chosen: seq<Hop>, h: Hop)
    requires Legs(anchors, chosen) && h in chosen
    ensures h.rate > 0.0 && LegRate(h.rate, anchors[h.source], anchors[h.target])
  {
    hide NearOffer, Ranged, Covers, LegRate;
    NearIsRated(anchors, h);
  }

  lemma NearIsRated(anchors: Anchors, h: Hop)
    requires NearOffer(anchors, h) && h.lp == "LP_A"
    ensures h.rate > 0.0 && LegRate(h.rate, anchors[h.source], anchors[h.target])
  {
  }

  lemma LegRates(anchors: Anchors, chosen: seq<Hop>, h: Hop)
    requires Legs(anchors, chosen) && h in chosen
    ensures h.rate > 0.0 && LegRate(h.rate, anchors[h.source], anchors[h.target]) && InRange(Times(1.0, h.rate))
    ensures forall c :: 0.9 <= anchors[c] <= 60.0
  {
    LegIsRated(anchors, chosen, h);
    hide LegRate, NearOffer, InRange;
    LegRange(h.rate, anchors[h.source], anchors[h.target]);
  }

  lemma NearAt(mul: Multiplication, x: real, y: real)
    requires NearTimes(mul) && x > 0.0 && y > 0.0 && InRange(Times(x, y))
    ensures Near(mul(x, y), Times(x, y))
  {
    hide Near, InRange, Times;
  }

  lemma RouteRates(mul: Multiplication, anchors: Anchors, chosen: seq<Hop>, s: Currency, t: Currency, d: Candidate)
    requires NearTimes(mul) && Legs(anchors, chosen) && IsDirect(mul, chosen, s, t, d)
    ensures RouteRate(d.rate, anchors[s], anchors[t])
  {
    hide NearTimes, Legs, LegRate, RouteRate, Near, InRange, Times;
    LegRates(anchors, chosen, d.hops[0]);
    NearAt(mul, 1.0, d.hops[0].rate);
    DirectBounds(d.rate, d.hops[0].rate, anchors[s], anchors[t]);
  }

  /** `x` against the ratio of two anchors, kept apart from what they are. */
  ghost predicate Below(x: real, a: real, b: real) { Times(x, a) <= 0.9986 * b }

  ghost predicate Worth(x: real, a: real, b: real) { 0.9988 * b <= Times(x, a) }

  /** A second hop always loses: against the direct hop, and against staying at the source. */
  lemma DetourIsWorse(mul: Multiplication, anchors: Anchors, chosen: seq<Hop>, s: Currency, d: Candidate, e: Hop)
    requires NearTimes(mul) && Legs(anchors, chosen) && e in chosen
    requires IsDirect(mul, chosen, s, e.source, d)
    ensures Below(mul(d.rate, e.rate), anchors[s], anchors[e.target])
  {
    RouteRates(mul, anchors, chosen, s, e.source, d);
    assert d.rate > 0.0;
    hide NearTimes, Legs, LegRate, RouteRate, Near, Below, IsDirect, InRange, Times;
    LegRates(anchors, chosen, e);
    DetourRange(d.rate, e.rate, anchors[s], anchors[e.source], anchors[e.target]);
    NearAt(mul, d.rate, e.rate);
    DetourBound(mul(d.rate, e.rate), d.rate, e.rate, anchors[s], anchors[e.source], anchors[e.target]);
  }

  lemma DirectIsWorth(mul: Multiplication, anchors: Anchors, chosen: seq<Hop>, s: Currency, t: Currency, d: Candidate)
    requires NearTimes(mul) && Legs(anchors, chosen) && IsDirect(mul, chosen, s, t, d)
    ensures Worth(d.rate, anchors[s], anchors[t])
  {
    hide NearTimes, Legs, IsDirect;
    RouteRates(mul, anchors, chosen, s, t, d);
  }

  lemma StayingIsWorth(a: real)
    requires a > 0.0
    ensures Worth(1.0, a, a)
  {
    OneTimes(a);
  }

  lemma Loses(x: real, y: real, a: real, b: real)
    requires a > 0.0 && b > 0.0 && Below(x, a, b) && Worth(y, a, b)
    ensures x < y
  {
    hide Times;
    CancelStrict(x, y, a);
  }

  lemma SameLeg(mul: Multiplication, anchors: Anchors, chosen: seq<Hop>, s: Currency, best: Best, e: Hop)
    requires Legs(anchors, chosen) && DirectBest(mul, chosen, s, best) && e in chosen && e.source == s && e.target != s
    ensures e.target in best && Extend(mul, best[s], e) == best[e.target]
  {
    hide NearOffer;
    assert IsDirect(mul, chosen, s, e.target, best[e.target]);
    assert best[e.target].hops[0] == e;
    assert best[e.target].hops == [] + [e];
  }

  lemma DetourLoses(mul: Multiplication, anchors: Anchors, chosen: seq<Hop>, s: Currency, best: Best, e: Hop)
    requires NearTimes(mul) && Legs(anchors, chosen) && DirectBest(mul, chosen, s, best) && e in chosen
    requires e.source != s
    ensures e.source in best && e.target in best && mul(best[e.source].rate, e.rate) < best[e.target].rate
  {
    hide NearTimes, Legs, IsDirect, Below, Worth;
    DetourIsWorse(mul, anchors, chosen, s, best[e.source], e);
    if e.target == s {
      StayingIsWorth(anchors[s]);
      Loses(mul(best[e.source].rate, e.rate), 1.0, anchors[s], anchors[s]);
    } else {
      DirectIsWorth(mul, anchors, chosen, s, e.target, best[e.target]);
      Loses(mul(best[e.source].rate, e.rate), best[e.target].rate, anchors[s], anchors[e.target]);
    }
  }

  lemma OfferLoses(mul: Multiplication, anchors: Anchors, chosen: seq<Hop>, s: Currency, best: Best, e: Hop)
    requires NearTimes(mul) && Legs(anchors, chosen) && DirectBest(mul, chosen, s, best) && e in chosen
    ensures e.source in best && e.target in best
    ensures Extend(mul, best[e.source], e) == best[e.target] || mul(best[e.source].rate, e.rate) < best[e.target].rate
  {
    LegsEnds(anchors, chosen, s, s);
    hide NearTimes, Legs, IsDirect;
    if e.source == s {
      SameLeg(mul, anchors, chosen, s, best, e);
    } else {
      DetourLoses(mul, anchors, chosen, s, best, e);
    }
  }

  lemma DirectStays(mul: Multiplication, anchors: Anchors, chosen: seq<Hop>, s: Currency, best: Best)
    requires NearTimes(mul) && Legs(anchors, chosen) && DirectBest(mul, chosen, s, best)
    ensures Relax(mul, best, chosen) == best
  {
    var next := Relax(mul, best, chosen);
    hide Relax, NearTimes, Legs;
    RelaxIsRelaxed(mul, best, chosen);
    forall t ensures t in next && t in best && next[t] == best[t] {
      if next[t] != best[t] {
        var e :| e in chosen && e.source in best && e.target == t && next[t] == Extend(mul, best[e.source], e);
        OfferLoses(mul, anchors, chosen, s, best, e);
      }
    }
  }

  // ---------------------------------------------------------------- main result

  /** The routes of one LP_A hop each, at the hop's own rate rounded once. */
  ghost predicate DirectHops(mul: Multiplication, edges: seq<Edge>, version: int, s: Currency, routes: Routes)
    requires AllValid(edges)
  {
    && (forall t :: t in routes <==> t != s)
    && forall t | t in routes :: DirectHop(mul, HopsOf(edges), version, s, t, routes[t])
  }

  ghost predicate DirectHop(mul: Multiplication, offers: seq<Hop>, version: int, s: Currency, t: Currency, q: RouteQuote) {
    && q.version == version && q.target == t && |q.hops| == 1 && q.hops[0] in offers
    && PairOf(q.hops[0]) == (s, t) && q.hops[0].lp == "LP_A" && q.rate == mul(1.0, q.hops[0].rate)
  }

  /** Under any arithmetic whose results are near the exact ones, every version of the feed is accepted and
      each route is the single LP_A hop. */
  lemma RoundedFeedIsDirect(mul: Multiplication, edges: seq<Edge>, version: int, s: Currency, r: Result<Routes>)
    requires NearTimes(mul) && Approximates(edges, GenerateEdges(version)) && Computes(mul, edges, version, s, r)
    ensures AllValid(edges) && r.Ok? && DirectHops(mul, edges, version, s, r.value)
  {
    var anchors := AnchorsOf(version);
    hide GenerateEdges, NearTimes, NearFeed, Legs, Relax, Anchor, Search, DirectBest, DirectHop, Accepted, IsCollapse;
    FeedIsNear(version, edges);
    var offers := HopsOf(edges);
    var chosen :| IsCollapse(offers, chosen) && r == Decide(mul, chosen, version, s);
    ChosenAreLegs(anchors, offers, chosen);
    SearchIsDirect(mul, anchors, chosen, s);
    var best := Search(mul, chosen, s);
    forall t | t != s ensures t in best && DirectHop(mul, offers, version, s, t, RouteQuote(version, t, best[t].rate, best[t].hops)) {
      EntryIsDirect(mul, anchors, offers, chosen, version, s, best, t);
    }
  }

  lemma EntryIsDirect(mul: Multiplication, anchors: Anchors, offers: seq<Hop>, chosen: seq<Hop>, version: int,
                      s: Currency, best: Best, t: Currency)
    requires Legs(anchors, chosen) && IsCollapse(offers, chosen) && DirectBest(mul, chosen, s, best) && s != t
    ensures t in best && DirectHop(mul, offers, version, s, t, RouteQuote(version, t, best[t].rate, best[t].hops))
  {
    hide NearOffer, SortedByPair, Dominates, Covers;
    assert IsDirect(mul, chosen, s, t, best[t]);
  }

  lemma SearchIsDirect(mul: Multiplication, anchors: Anchors, chosen: seq<Hop>, s: Currency)
    requires NearTimes(mul) && Legs(anchors, chosen)
    ensures DirectBest(mul, chosen, s, Search(mul, chosen, s)) && Accepted(mul, Search(mul, chosen, s), chosen)
  {
    hide NearTimes, Legs, Relax, DirectBest;
    var first := Relax(mul, Start(s), chosen);
    FirstRound(mul, anchors, chosen, s);
    DirectStays(mul, anchors, chosen, s, first);
    assert Rounds(mul, Start(s), chosen, 0) == Start(s);
    assert Rounds(mul, Start(s), chosen, 1) == first && Rounds(mul, Start(s), chosen, 2) == first;
    FixpointStays(mul, Start(s), chosen, 1, ROUNDS);
  }

  // ---------------------------------------------------------------- rounding every result

  /** A rounding with a relative error of at most one part in a hundred thousand, where the feed needs it. */
  ghost predicate Close(round: real -> real) {
    forall x | InRange(x) :: 0.99999 * x <= round(x) <= 1.00001 * x
  }

  function Factor(lp: string): real { if lp == "LP_A" then 0.999 else if lp == "LP_B" then 0.998 else 0.997 }

  function RoundedEdge(round: real -> real, anchors: Anchors, e: Edge): Edge {
    Edge(e.source, e.target, e.lp, Finite(round(round(anchors[e.target] / anchors[e.source]) * Factor(e.lp))))
  }

  /** The feed with its division and its product rounded. */
  function RoundedEdges(round: real -> real, version: int): seq<Edge> {
    var exact := GenerateEdges(version);
    seq(|exact|, i requires 0 <= i < |exact| => RoundedEdge(round, AnchorsOf(version), exact[i]))
  }

  lemma TwiceClose(round: real -> real, q: real, f: real)
    requires Close(round) && 0.0148 <= q <= 67.0 && 0.99 <= f <= 1.0
    ensures Near(round(round(q) * f), q * f)
  {
    assert 0.99999 * q <= round(q) <= 1.00001 * q;
    ScaledClose(q, round(q), f);
    assert Times(q, f) == q * f && Times(round(q), f) == round(q) * f;
    hide Times, Close, Near;
    TwoErrors(round, Times(q, f), Times(round(q), f));
  }

  lemma ScaledClose(q: real, r: real, f: real)
    requires 0.0148 <= q <= 67.0 && 0.99 <= f <= 1.0 && 0.99999 * q <= r <= 1.00001 * q
    ensures 0.99999 * Times(q, f) <= Times(r, f) <= 1.00001 * Times(q, f) && 0.0146 <= Times(q, f) <= 67.0
  {
    Scaled(q, f);
    hide Times;
    TimesOrdered(0.99999 * q, r, f);
    TimesOrdered(r, 1.00001 * q, f);
    NearlyWhole(q, f);
  }

  lemma Scaled(x: real, f: real)
    ensures Times(0.99999 * x, f) == 0.99999 * Times(x, f) && Times(1.00001 * x, f) == 1.00001 * Times(x, f)
  {
  }

  lemma NearlyWhole(q: real, f: real)
    requires 0.0148 <= q <= 67.0 && 0.99 <= f <= 1.0
    ensures 0.0146 <= Times(q, f) <= 67.0
  {
    assert Times(0.99, q) == 0.99 * q && Times(1.0, q) == q;
    Commutes(q, f);
    hide Times;
    TimesOrdered(0.99, f, q);
    TimesOrdered(f, 1.0, q);
  }

  lemma TwoErrors(round: real -> real, exact: real, once: real)
    requires Close(round) && 0.99999 * exact <= once <= 1.00001 * exact && 0.0146 <= exact <= 67.0
    ensures Near(round(once), exact)
  {
    assert InRange(once);
  }

  lemma LpRate(anchors: Anchors, s: Currency, t: Currency, e: Edge)
    requires e in LpEdges(anchors, s, t)
    ensures e.rate == Finite(anchors[t] / anchors[s] * Factor(e.lp))
  {
    assert "LP_A"[3] == 'A' && "LP_B"[3] == 'B' && "LP_C"[3] == 'C';
    var i :| 0 <= i < |LpEdges(anchors, s, t)| && LpEdges(anchors, s, t)[i] == e;
  }

  lemma FeedRate(version: int, i: nat)
    requires i < |GenerateEdges(version)|
    ensures var e, anchors := GenerateEdges(version)[i], AnchorsOf(version);
      e.rate == Finite(anchors[e.target] / anchors[e.source] * Factor(e.lp))
  {
    var e, anchors := GenerateEdges(version)[i], AnchorsOf(version);
    assert e in GenerateEdges(version);
    hide Anchor, LpEdges;
    EdgesAmongMembers(anchors, CURRENCIES, e);
    LpRate(anchors, e.source, e.target, e);
  }

  /** A feed whose every result is rounded that closely is near the exact one. */
  lemma RoundingIsNear(round: real -> real, version: int)
    requires Close(round)
    ensures NearTimes(Rounded(round)) && Approximates(RoundedEdges(round, version), GenerateEdges(version))
  {
    var anchors, exact := AnchorsOf(version), GenerateEdges(version);
    AnchorsRanged(version);
    hide GenerateEdges, Anchor, Close;
    forall i | 0 <= i < |exact| ensures NearEdge(RoundedEdges(round, version)[i], exact[i]) {
      FeedRate(version, i);
      RoundedEdgeIsNear(round, anchors, exact[i]);
    }
    ProductsNear(round);
  }

  lemma RoundedEdgeIsNear(round: real -> real, anchors: Anchors, e: Edge)
    requires Close(round) && Ranged(anchors)
    requires e.rate == Finite(anchors[e.target] / anchors[e.source] * Factor(e.lp))
    ensures NearEdge(RoundedEdge(round, anchors, e), e)
  {
    hide Close;
    var q := anchors[e.target] / anchors[e.source];
    assert q * anchors[e.source] == anchors[e.target];
    RatioRange(q, anchors[e.source], anchors[e.target]);
    TwiceClose(round, q, Factor(e.lp));
  }

  lemma ProductsNear(round: real -> real)
    requires Close(round)
    ensures NearTimes(Rounded(round))
  {
    hide InRange, Near, Times;
    forall x, y | x > 0.0 && y > 0.0 && InRange(Times(x, y)) ensures Near(Rounded(round)(x, y), Times(x, y)) {
      RoundedNear(round, Times(x, y));
    }
  }

  lemma RoundedNear(round: real -> real, p: real)
    requires Close(round) && InRange(p)
    ensures Near(round(p), p)
  {
  }
}
