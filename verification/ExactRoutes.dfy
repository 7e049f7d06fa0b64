/** Route computation in exact arithmetic: which graphs are rejected, and which route is published. */
module ExactRoutes {
  import opened Options
  import opened Orders
  import opened Reals
  import opened Routing
  import opened Walks

  function Product(hops: seq<Hop>): real { Fold(Times, hops) }

  /** A closed walk reachable from `s` whose product is greater than one. */
  ghost predicate ProfitableCycle(edges: seq<Hop>, s: Currency, prefix: seq<Hop>, x: Currency, cycle: seq<Hop>) {
    && Walk(s, prefix, x) && Over(edges, prefix)
    && Walk(x, cycle, x) && Over(edges, cycle)
    && Product(cycle) > 1.0
  }

  ghost predicate Arbitrage(edges: seq<Hop>, s: Currency) {
    exists prefix, x, cycle :: ProfitableCycle(edges, s, prefix, x, cycle)
  }

  /** What the published route to `t` is, told without the algorithm: among all simple paths over the
      original edges, one of greatest product, and of those the least in (source, target, lp) order. */
  ghost predicate BestRoute(edges: seq<Hop>, s: Currency, t: Currency, hops: seq<Hop>) {
    && Path(edges, s, hops, t)
    && forall p | Path(edges, s, p, t) ::
      Product(p) < Product(hops) || (Product(p) == Product(hops) && !KeyLess(HopKey(p), HopKey(hops)))
  }

  // ---------------------------------------------------------------- products

  lemma {:induction false} FoldScales(a: real, hops: seq<Hop>)
    ensures FoldFrom(Times, a, hops) == Times(a, Product(hops))
  {
    hide Times;
    if hops != [] {
      var init, rate := hops[..|hops| - 1], hops[|hops| - 1].rate;
      FoldScales(a, init);
      Regroups(a, Product(init), rate);
    } else {
      OneTimes(a);
    }
  }

  lemma {:induction false} ProductConcat(p: seq<Hop>, q: seq<Hop>)
    ensures Product(p + q) == Times(Product(p), Product(q))
  {
    hide Times;
    if q == [] {
      assert p + q == p;
      OneTimes(Product(p));
    } else {
      var init, e := q[..|q| - 1], q[|q| - 1];
      assert (p + q)[..|p + q| - 1] == p + init && (p + q)[|p + q| - 1] == e;
      ProductConcat(p, init);
      Regroups(Product(p), Product(init), e.rate);
    }
  }

  lemma ProductExtend(p: seq<Hop>, e: Hop)
    ensures Product(p + [e]) == Times(Product(p), e.rate)
  {
    assert (p + [e])[..|p|] == p;
  }

  lemma {:induction false} ProductPositive(edges: seq<Hop>, hops: seq<Hop>)
    requires Positive(edges) && Over(edges, hops)
    ensures Product(hops) > 0.0
  {
    hide Times;
    if hops != [] {
      ProductPositive(edges, hops[..|hops| - 1]);
      assert hops[|hops| - 1] in edges;
      TimesPositive(Product(hops[..|hops| - 1]), hops[|hops| - 1].rate);
    }
  }

  lemma TimesMonotone()
    ensures Monotone(Times)
  {
    forall a: real, b: real, c: real, d: real | 0.0 <= a <= b && 0.0 <= c <= d ensures Times(a, c) <= Times(b, d) {
      ProductsOrdered(a, b, c, d);
    }
  }

  lemma NotScaledUp(a: real, b: real)
    requires a > 0.0 && a * b <= a
    ensures b <= 1.0
  {
    assert a * (b - 1.0) <= 0.0;
  }

  lemma ScaledDown(a: real, b: real)
    requires a >= 0.0 && b <= 1.0
    ensures a * b <= a
  {
    assert a * (1.0 - b) >= 0.0;
  }

  // ---------------------------------------------------------------- acceptance excludes arbitrage

  lemma CycleAtEntry(offers: seq<Hop>, chosen: seq<Hop>, best: Best, x: Currency, cycle: seq<Hop>)
    requires Positive(offers) && IsCollapse(offers, chosen) && Accepted(Times, best, chosen)
    requires x in best && best[x].rate > 0.0
    requires Walk(x, cycle, x) && Over(offers, cycle)
    ensures Product(cycle) <= 1.0
  {
    hide Times, FoldFrom, Product, Monotone, Positive, IsCollapse, Accepted;
    var a := best[x].rate;
    TimesMonotone();
    NoWalkGains(Times, offers, chosen, best, x, a, cycle, x);
    FoldScales(a, cycle);
    NotGained(FoldFrom(Times, a, cycle), a, Product(cycle));
  }

  lemma NotGained(folded: real, a: real, p: real)
    requires a > 0.0 && folded == Times(a, p) && folded <= a
    ensures p <= 1.0
  {
    NotScaledUp(a, p);
  }

  lemma EntryPositive(chosen: seq<Hop>, s: Currency, best: Best, x: Currency)
    requires Positive(chosen) && Walked(Times, chosen, s, best) && x in best
    ensures best[x].rate > 0.0
  {
    ProductPositive(chosen, best[x].hops);
  }

  lemma AcceptedExcludesCycle(offers: seq<Hop>, chosen: seq<Hop>, s: Currency, best: Best,
                              prefix: seq<Hop>, x: Currency, cycle: seq<Hop>)
    requires Positive(offers) && IsCollapse(offers, chosen) && Accepted(Times, best, chosen)
    requires Walked(Times, chosen, s, best) && s in best && best[s].rate >= 1.0
    requires Walk(s, prefix, x) && Over(offers, prefix) && Walk(x, cycle, x) && Over(offers, cycle)
    ensures Product(cycle) <= 1.0
  {
    TimesMonotone();
    NoWalkGains(Times, offers, chosen, best, s, 1.0, prefix, x);
    ChosenPositive(offers, chosen);
    EntryPositive(chosen, s, best, x);
    CycleAtEntry(offers, chosen, best, x, cycle);
  }

  lemma ChosenPositive(offers: seq<Hop>, chosen: seq<Hop>)
    requires Positive(offers) && IsCollapse(offers, chosen)
    ensures Positive(chosen)
  {
  }

  // ---------------------------------------------------------------- the rounds find the best short paths

  ghost predicate Short(edges: seq<Hop>, s: Currency, hops: seq<Hop>, t: Currency, k: nat) {
    Path(edges, s, hops, t) && |hops| <= k
  }

  function Measured(hops: seq<Hop>): Candidate { Candidate(Product(hops), hops) }

  /** Every entry is a simple path of at most `k` hops with its product. */
  ghost predicate Found(edges: seq<Hop>, s: Currency, k: nat, best: Best) {
    forall t | t in best :: Short(edges, s, best[t].hops, t, k) && best[t] == Measured(best[t].hops)
  }

  /** No simple path of at most `k` hops beats the entry of its target. */
  ghost predicate Unbeaten(edges: seq<Hop>, s: Currency, k: nat, best: Best) {
    forall hops, t | Short(edges, s, hops, t, k) :: t in best && AtLeast(best[t], Measured(hops))
  }

  ghost predicate Optimal(edges: seq<Hop>, s: Currency, k: nat, best: Best) {
    Found(edges, s, k, best) && Unbeaten(edges, s, k, best)
  }

  lemma HopKeyExtend(p: seq<Hop>, e: Hop)
    ensures HopKey(p + [e]) == HopKey(p) + [HopTuple(e)]
  {
  }

  lemma HopTupleInjective(a: Hop, b: Hop)
    requires HopTuple(a) == HopTuple(b)
    ensures a.source == b.source && a.target == b.target && a.lp == b.lp
  {
    ValueInjective(a.source, b.source);
    ValueInjective(a.target, b.target);
    assert HopTuple(a)[0] == HopTuple(b)[0] && HopTuple(a)[1] == HopTuple(b)[1] && HopTuple(a)[2] == HopTuple(b)[2];
  }

  /** Key prefixes are prefixes of the currencies passed. */
  lemma PrefixKeyMeets(s: Currency, q: seq<Hop>, p: seq<Hop>)
    requires |q| <= |p| && HopKey(q) <= HopKey(p)
    ensures At(s, p, |q|) == At(s, q, |q|)
  {
    if q != [] {
      var n := |q| - 1;
      assert HopKey(q)[n] == HopKey(p)[n];
      HopTupleInjective(q[n], p[n]);
    }
  }

  lemma SimpleKeyNotPrefix(s: Currency, q: seq<Hop>, p: seq<Hop>, u: Currency)
    requires Walk(s, q, u) && Walk(s, p, u) && Simple(s, p) && |q| < |p|
    ensures !(HopKey(q) <= HopKey(p))
  {
    if HopKey(q) <= HopKey(p) {
      PrefixKeyMeets(s, q, p);
    }
  }

  /** Appending the same edge keeps the lesser key of two walks to its source the lesser, if the other is simple. */
  lemma ExtendKeepsKey(s: Currency, q: seq<Hop>, p: seq<Hop>, u: Currency, e: Hop)
    requires Walk(s, q, u) && Walk(s, p, u) && Simple(s, p)
    requires !KeyLess(HopKey(p), HopKey(q))
    ensures !KeyLess(HopKey(p + [e]), HopKey(q + [e]))
  {
    HopKeyExtend(p, e);
    HopKeyExtend(q, e);
    var a, b, x := HopKey(q), HopKey(p), [HopTuple(e)];
    if a == b {
      LexIrreflexive(TupleLess, a + x);
    } else {
      KeyConnected(a, b);
      if |q| < |p| {
        SimpleKeyNotPrefix(s, q, p, u);
      }
      LexExtend(TupleLess, a, b, x, x);
      KeyAsymmetric(a + x, b + x);
    }
  }

  lemma KeyConnected(a: seq<seq<string>>, b: seq<seq<string>>)
    requires a != b && !KeyLess(b, a)
    ensures KeyLess(a, b)
  {
    KeyLessIsTotal();
  }

  lemma KeyAsymmetric(a: seq<seq<string>>, b: seq<seq<string>>)
    requires KeyLess(a, b)
    ensures !KeyLess(b, a)
  {
    KeyLessIsTotal();
  }

  lemma ScaleKeepsOrder(a: real, b: real, c: real)
    requires a >= b && c > 0.0
    ensures a * c >= b * c && (a > b ==> a * c > b * c)
  {
    assert (a - b) * c >= 0.0;
    assert a > b ==> (a - b) * c > 0.0;
  }

  /** Appending the same edge keeps the better of two simple paths to its source the better one. */
  lemma ExtendKeepsOrder(s: Currency, q: seq<Hop>, p: seq<Hop>, u: Currency, e: Hop)
    requires Walk(s, q, u) && Walk(s, p, u) && Simple(s, p)
    requires AtLeast(Measured(q), Measured(p)) && e.rate > 0.0
    ensures AtLeast(Measured(q + [e]), Measured(p + [e]))
  {
    hide Product, Times, KeyLess, HopKey;
    ProductExtend(p, e);
    ProductExtend(q, e);
    if Product(q) > Product(p) { TimesStrict(Product(p), Product(q), e.rate); }
    if Product(q) == Product(p) {
      ExtendKeepsKey(s, q, p, u, e);
    }
  }

  lemma ExtendMeasured(q: seq<Hop>, e: Hop)
    ensures Extend(Times, Measured(q), e) == Measured(q + [e])
  {
    ProductExtend(q, e);
  }

  /** Where the two parts of a walk stand. */
  lemma StopsSplit(s: Currency, hops: seq<Hop>, i: nat)
    requires i <= |hops|
    ensures forall j | 0 <= j <= i :: At(s, hops[..i], j) == At(s, hops, j)
    ensures forall j | 0 <= j <= |hops| - i :: At(At(s, hops, i), hops[i..], j) == At(s, hops, i + j)
  {
  }

  lemma WalkSplit(s: Currency, hops: seq<Hop>, t: Currency, i: nat)
    requires Walk(s, hops, t) && i <= |hops|
    ensures Walk(s, hops[..i], At(s, hops, i)) && Walk(At(s, hops, i), hops[i..], t)
    ensures Simple(s, hops) ==> Simple(s, hops[..i])
  {
    StopsSplit(s, hops, i);
    hide At;
    var x, rest := At(s, hops, i), hops[i..];
    forall j {:trigger At(x, rest, j)} | 0 <= j < |rest| ensures rest[j].source == At(x, rest, j) {
      assert hops[i + j].source == At(s, hops, i + j);
    }
    assert forall j {:trigger At(s, hops[..i], j)} | 0 <= j < i :: hops[..i][j].source == At(s, hops, j);
  }

  /** A candidate that comes back to a currency its path has been to loses to that shorter path. */
  lemma CycleLoses(edges: seq<Hop>, s: Currency, q: seq<Hop>, e: Hop, i: nat)
    requires Positive(edges) && !Arbitrage(edges, s)
    requires Walk(s, q, e.source) && Over(edges, q) && e in edges
    requires i <= |q| && At(s, q, i) == e.target
    ensures IsBetter(Measured(q[..i]), Some(Measured(q + [e])))
  {
    var prefix, cycle := q[..i], q[i..] + [e];
    WalkSplit(s, q, e.source, i);
    WalkExtend(e.target, q[i..], e.source, e);
    assert !ProfitableCycle(edges, s, prefix, e.target, cycle);
    assert q + [e] == prefix + cycle;
    DetourLoses(edges, prefix, cycle);
  }

  lemma DetourLoses(edges: seq<Hop>, prefix: seq<Hop>, cycle: seq<Hop>)
    requires Positive(edges) && Over(edges, prefix) && Product(cycle) <= 1.0 && cycle != []
    ensures IsBetter(Measured(prefix), Some(Measured(prefix + cycle)))
  {
    ProductConcat(prefix, cycle);
    ProductPositive(edges, prefix);
    ScaledDown(Product(prefix), Product(cycle));
    assert HopKey(prefix + cycle) == HopKey(prefix) + HopKey(cycle);
    LexPrefix(TupleLess, HopKey(prefix), HopKey(cycle));
  }

  /** What holds at `t` beats every extension of `q` that returns to `t`. */
  lemma ReturnIsBeaten(edges: seq<Hop>, s: Currency, k: nat, best: Best, q: seq<Hop>, e: Hop, i: nat)
    requires Positive(edges) && !Arbitrage(edges, s) && Optimal(edges, s, k, best)
    requires Short(edges, s, q, e.source, k) && e in edges
    requires i <= |q| && At(s, q, i) == e.target
    ensures e.target in best && !AtLeast(Measured(q + [e]), best[e.target])
  {
    WalkSplit(s, q, e.source, i);
    var shorter := q[..i];
    assert Short(edges, s, shorter, e.target, k);
    CycleLoses(edges, s, q, e, i);
    if AtLeast(Measured(q + [e]), best[e.target]) {
      AtLeastTransitive(Measured(q + [e]), best[e.target], Measured(shorter));
      assert false;
    }
  }

  lemma NextIsSimple(edges: seq<Hop>, s: Currency, k: nat, best: Best, e: Hop)
    requires Positive(edges) && !Arbitrage(edges, s) && Optimal(edges, s, k, best)
    requires e in edges && e.source in best
    requires e.target in best ==> AtLeast(Measured(best[e.source].hops + [e]), best[e.target])
    ensures Short(edges, s, best[e.source].hops + [e], e.target, k + 1)
  {
    var q := best[e.source].hops;
    forall i | 0 <= i <= |q| ensures At(s, q, i) != e.target {
      if At(s, q, i) == e.target {
        ReturnIsBeaten(edges, s, k, best, q, e, i);
        assert false;
      }
    }
    AppendSimple(s, q, e);
  }

  lemma AppendSimple(s: Currency, q: seq<Hop>, e: Hop)
    requires Walk(s, q, e.source) && Simple(s, q)
    requires forall i | 0 <= i <= |q| :: At(s, q, i) != e.target
    ensures Walk(s, q + [e], e.target) && Simple(s, q + [e])
  {
    WalkExtend(s, q, e.source, e);
    assert forall i | 0 <= i <= |q| :: At(s, q + [e], i) == At(s, q, i);
  }

  lemma NextIsBest(edges: seq<Hop>, s: Currency, k: nat, best: Best, p: seq<Hop>, t: Currency)
    requires Positive(edges) && Optimal(edges, s, k, best)
    requires Short(edges, s, p, t, k + 1)
    ensures var next := Relax(Times, best, edges); t in next && AtLeast(next[t], Measured(p))
  {
    var next := Relax(Times, best, edges);
    RelaxIsRelaxed(Times, best, edges);
    if p == [] {
      assert Short(edges, s, p, t, k);
      AtLeastTransitive(next[t], best[t], Measured(p));
    } else {
      var init, e := SplitLast(edges, s, p, t);
      WalkSplit(s, p, t, |init|);
      assert Short(edges, s, init, e.source, k);
      var q := best[e.source].hops;
      ExtendKeepsOrder(s, q, init, e.source, e);
      ExtendMeasured(q, e);
      AtLeastTransitive(next[t], Measured(q + [e]), Measured(p));
    }
  }

  lemma NextIsMeasured(edges: seq<Hop>, s: Currency, k: nat, best: Best, t: Currency)
    requires Positive(edges) && !Arbitrage(edges, s) && Optimal(edges, s, k, best)
    requires t in Relax(Times, best, edges)
    ensures var c := Relax(Times, best, edges)[t]; Short(edges, s, c.hops, t, k + 1) && c == Measured(c.hops)
  {
    var next := Relax(Times, best, edges);
    RelaxIsRelaxed(Times, best, edges);
    if t in best && next[t] == best[t] {
      assert Short(edges, s, best[t].hops, t, k);
    } else {
      var e :| e in edges && e.source in best && e.target == t && next[t] == Extend(Times, best[e.source], e);
      ExtendMeasured(best[e.source].hops, e);
      NextIsSimple(edges, s, k, best, e);
    }
  }

  lemma FoundStep(edges: seq<Hop>, s: Currency, k: nat, best: Best)
    requires Positive(edges) && !Arbitrage(edges, s) && Optimal(edges, s, k, best)
    ensures Found(edges, s, k + 1, Relax(Times, best, edges))
  {
    var next := Relax(Times, best, edges);
    forall t | t in next ensures Short(edges, s, next[t].hops, t, k + 1) && next[t] == Measured(next[t].hops) {
      NextIsMeasured(edges, s, k, best, t);
    }
  }

  lemma UnbeatenStep(edges: seq<Hop>, s: Currency, k: nat, best: Best)
    requires Positive(edges) && Optimal(edges, s, k, best)
    ensures Unbeaten(edges, s, k + 1, Relax(Times, best, edges))
  {
    var next, n := Relax(Times, best, edges), k + 1;
    forall hops, t | Short(edges, s, hops, t, n) ensures t in next && AtLeast(next[t], Measured(hops)) {
      NextIsBest(edges, s, k, best, hops, t);
    }
  }

  lemma OptimalStep(edges: seq<Hop>, s: Currency, k: nat, best: Best)
    requires Positive(edges) && !Arbitrage(edges, s) && Optimal(edges, s, k, best)
    ensures Optimal(edges, s, k + 1, Relax(Times, best, edges))
  {
    FoundStep(edges, s, k, best);
    UnbeatenStep(edges, s, k, best);
  }

  /** Without arbitrage, `n` rounds find the best simple path of at most `n` hops to every currency. */
  lemma {:induction false} RoundsOptimal(edges: seq<Hop>, s: Currency, n: nat)
    requires Positive(edges) && !Arbitrage(edges, s)
    ensures Optimal(edges, s, n, Rounds(Times, Start(s), edges, n))
  {
    if n == 0 {
      BetterIsAtLeast(Measured([]), Measured([]));
    } else {
      RoundsOptimal(edges, s, n - 1);
      OptimalStep(edges, s, n - 1, Rounds(Times, Start(s), edges, n - 1));
    }
  }

  // ---------------------------------------------------------------- simple paths are short

  function Visited(s: Currency, hops: seq<Hop>, n: nat): set<Currency>
    requires n <= |hops|
  {
    if n == 0 then {s} else Visited(s, hops, n - 1) + {At(s, hops, n)}
  }

  lemma {:induction false} VisitedMembers(s: Currency, hops: seq<Hop>, n: nat, c: Currency)
    requires n <= |hops|
    ensures c in Visited(s, hops, n) <==> exists i :: 0 <= i <= n && At(s, hops, i) == c
  {
    if n == 0 {
      assert At(s, hops, 0) == s;
    } else {
      VisitedMembers(s, hops, n - 1, c);
      assert At(s, hops, n) == c ==> c in Visited(s, hops, n);
    }
  }

  lemma {:induction false} VisitedCount(s: Currency, hops: seq<Hop>, n: nat)
    requires n <= |hops| && Simple(s, hops)
    ensures |Visited(s, hops, n)| == n + 1
  {
    if n > 0 {
      VisitedCount(s, hops, n - 1);
      VisitedMembers(s, hops, n - 1, At(s, hops, n));
    }
  }

  lemma SimpleIsShort(s: Currency, hops: seq<Hop>)
    requires Simple(s, hops)
    ensures |hops| <= ROUNDS
  {
    VisitedCount(s, hops, |hops|);
    var all := {USD, USDC, EUR, PHP, AED};
    assert Visited(s, hops, |hops|) <= all by {
      forall c: Currency ensures c in all {
        match c case USD => case USDC => case EUR => case PHP => case AED =>
      }
    }
    SubsetCardinality(Visited(s, hops, |hops|), all);
  }

  lemma {:induction false} SubsetCardinality(a: set<Currency>, b: set<Currency>)
    requires a <= b
    ensures |a| <= |b|
  {
    if a != {} {
      var x :| x in a;
      SubsetCardinality(a - {x}, b - {x});
    }
  }

  /** Without arbitrage one more relaxation improves nothing. */
  lemma NoArbitrageIsAccepted(edges: seq<Hop>, s: Currency)
    requires Positive(edges) && !Arbitrage(edges, s)
    ensures Accepted(Times, Search(Times, edges, s), edges)
  {
    var best := Search(Times, edges, s);
    var extra := Relax(Times, best, edges);
    RoundsOptimal(edges, s, ROUNDS);
    OptimalStep(edges, s, ROUNDS, best);
    forall t | t in extra ensures t in best && extra[t].rate <= best[t].rate {
      SimpleIsShort(s, extra[t].hops);
      assert Short(edges, s, extra[t].hops, t, ROUNDS);
    }
  }

  // ---------------------------------------------------------------- main results

  /** A graph of positive finite rates is rejected if and only if a closed walk reachable from the source
      multiplies to more than one. */
  lemma RejectedIffArbitrage(edges: seq<Edge>, version: int, s: Currency, r: Result<Routes>)
    requires AllValid(edges) && Computes(Times, edges, version, s, r)
    ensures r.Err? <==> Arbitrage(HopsOf(edges), s)
  {
    var offers := HopsOf(edges);
    OffersPositive(edges);
    var chosen :| IsCollapse(offers, chosen) && r == Decide(Times, chosen, version, s);
    ChosenPositive(offers, chosen);
    if r.Ok? {
      RoundsWalked(Times, chosen, s, ROUNDS);
      forall prefix, x, cycle ensures !ProfitableCycle(offers, s, prefix, x, cycle) {
        if Walk(s, prefix, x) && Over(offers, prefix) && Walk(x, cycle, x) && Over(offers, cycle) {
          AcceptedExcludesCycle(offers, chosen, s, Search(Times, chosen, s), prefix, x, cycle);
        }
      }
    } else {
      if !Arbitrage(chosen, s) {
        NoArbitrageIsAccepted(chosen, s);
        assert false;
      }
      var prefix, x, cycle :| ProfitableCycle(chosen, s, prefix, x, cycle);
      assert ProfitableCycle(offers, s, prefix, x, cycle);
    }
  }

  lemma ExtendCanonKey(p: seq<Hop>, e: Hop, q: seq<Hop>, h: Hop)
    requires |p| == |q| && !KeyLess(HopKey(p), HopKey(q))
    requires PairOf(e) == PairOf(h) && !StringLess(e.lp, h.lp)
    ensures !KeyLess(HopKey(p + [e]), HopKey(q + [h]))
  {
    KeyLessIsTotal();
    TupleLessIsTotal();
    HopKeyExtend(p, e);
    HopKeyExtend(q, h);
    var a, b := HopKey(p), HopKey(q);
    var pair := PairKey(PairOf(e));
    assert HopTuple(e) == pair + [e.lp] && HopTuple(h) == pair + [h.lp];
    LexCommonPrefix(StringLess, pair, [e.lp], [h.lp]);
    if a == b {
      LexCommonPrefix(TupleLess, a, [HopTuple(e)], [HopTuple(h)]);
    } else {
      assert KeyLess(b, a);
      LexExtend(TupleLess, b, a, [HopTuple(h)], [HopTuple(e)]);
      assert KeyLess(b + [HopTuple(h)], a + [HopTuple(e)]);
    }
  }

  lemma ProductsCompare(a: real, b: real, c: real, d: real)
    requires 0.0 < a <= b && 0.0 < c <= d
    ensures a * c <= b * d && (a * c == b * d ==> a == b && c == d)
  {
    ProductsOrdered(a, b, c, d);
    assert b * d - a * c == b * (d - c) + (b - a) * c;
    assert b * (d - c) >= 0.0 && (b - a) * c >= 0.0;
    if a < b {
      assert (b - a) * c > 0.0;
    }
    if c < d {
      assert b * (d - c) > 0.0;
    }
  }

  /** Every path over the original edges is matched by one over the collapsed edges that is no worse. */
  lemma {:induction false} Canonical(offers: seq<Hop>, chosen: seq<Hop>, s: Currency, p: seq<Hop>, t: Currency)
    returns (q: seq<Hop>)
    requires Positive(offers) && IsCollapse(offers, chosen)
    requires Walk(s, p, t) && Over(offers, p)
    ensures Walk(s, q, t) && Over(chosen, q) && |q| == |p|
    ensures forall i | 0 <= i <= |p| :: At(s, q, i) == At(s, p, i)
    ensures Product(p) <= Product(q)
    ensures Product(p) == Product(q) ==> !KeyLess(HopKey(p), HopKey(q))
    decreases |p|
  {
    if p == [] {
      q := [];
      KeyLessIsTotal();
    } else {
      var init, e := SplitLast(offers, s, p, t);
      var rest := Canonical(offers, chosen, s, init, e.source);
      var h := ChosenFor(offers, chosen, e);
      q := rest + [h];
      WalkExtend(s, rest, e.source, h);
      ExtendNoWorse(offers, init, e, rest, h);
      forall i | 0 <= i <= |p| ensures At(s, q, i) == At(s, p, i) {
        if i < |p| {
          assert At(s, rest, i) == At(s, init, i);
        }
      }
    }
  }

  lemma ExtendNoWorse(offers: seq<Hop>, p: seq<Hop>, e: Hop, q: seq<Hop>, h: Hop)
    requires Positive(offers) && Over(offers, p) && e in offers
    requires |p| == |q| && Product(p) <= Product(q) && (Product(p) == Product(q) ==> !KeyLess(HopKey(p), HopKey(q)))
    requires PairOf(e) == PairOf(h) && Dominates(h, e)
    ensures Product(p + [e]) <= Product(q + [h])
    ensures Product(p + [e]) == Product(q + [h]) ==> !KeyLess(HopKey(p + [e]), HopKey(q + [h]))
  {
    ProductExtend(p, e);
    ProductExtend(q, h);
    ProductPositive(offers, p);
    ProductsCompare(Product(p), Product(q), e.rate, h.rate);
    if Product(p + [e]) == Product(q + [h]) {
      ExtendCanonKey(p, e, q, h);
    }
  }

  lemma FoundIsBest(offers: seq<Hop>, chosen: seq<Hop>, s: Currency, p: seq<Hop>, t: Currency)
    requires Positive(offers) && IsCollapse(offers, chosen) && !Arbitrage(chosen, s)
    requires Path(offers, s, p, t)
    ensures var best := Search(Times, chosen, s);
      t in best && best[t].rate == Product(best[t].hops) && AtLeast(best[t], Measured(p))
  {
    ChosenPositive(offers, chosen);
    RoundsOptimal(chosen, s, ROUNDS);
    var best := Search(Times, chosen, s);
    var q := Canonical(offers, chosen, s, p, t);
    SimpleIsShort(s, q);
    assert Short(chosen, s, q, t, ROUNDS);
    AtLeastTransitive(best[t], Measured(q), Measured(p));
  }

  lemma ChosenHasNone(offers: seq<Hop>, chosen: seq<Hop>, s: Currency)
    requires IsCollapse(offers, chosen) && !Arbitrage(offers, s)
    ensures !Arbitrage(chosen, s)
  {
    forall prefix, x, cycle ensures !ProfitableCycle(chosen, s, prefix, x, cycle) {
      assert !ProfitableCycle(offers, s, prefix, x, cycle);
    }
  }

  ghost predicate BestFor(offers: seq<Hop>, s: Currency, t: Currency, c: Candidate) {
    BestRoute(offers, s, t, c.hops) && c.rate == Product(c.hops) && |c.hops| <= ROUNDS
  }

  lemma EntryIsBest(offers: seq<Hop>, chosen: seq<Hop>, s: Currency, t: Currency)
    requires Positive(offers) && IsCollapse(offers, chosen) && !Arbitrage(chosen, s)
    requires t in Search(Times, chosen, s)
    ensures BestFor(offers, s, t, Search(Times, chosen, s)[t])
  {
    ChosenPositive(offers, chosen);
    RoundsOptimal(chosen, s, ROUNDS);
    var c := Search(Times, chosen, s)[t];
    assert Short(chosen, s, c.hops, t, ROUNDS);
    assert Path(offers, s, c.hops, t);
    forall p | Path(offers, s, p, t)
      ensures Product(p) < c.rate || (Product(p) == c.rate && !KeyLess(HopKey(p), HopKey(c.hops)))
    {
      FoundIsBest(offers, chosen, s, p, t);
    }
  }

  /** On acceptance a currency has a route exactly when a path reaches it, and the route is the canonical
      one: a simple path of at most four hops, of greatest product among all simple paths of the original
      multigraph, and least in (source, target, lp) order among those. Neutral cycles change nothing. */
  lemma PublishedRoutesAreBest(edges: seq<Edge>, version: int, s: Currency, r: Result<Routes>)
    requires AllValid(edges) && Computes(Times, edges, version, s, r) && r.Ok?
    ensures forall t | t != s :: t in r.value <==> exists p :: Path(HopsOf(edges), s, p, t)
    ensures forall t | t in r.value ::
      && BestRoute(HopsOf(edges), s, t, r.value[t].hops)
      && r.value[t].rate == Product(r.value[t].hops)
      && |r.value[t].hops| <= 4
  {
    var offers := HopsOf(edges);
    OffersPositive(edges);
    RejectedIffArbitrage(edges, version, s, r);
    var chosen :| IsCollapse(offers, chosen) && r == Decide(Times, chosen, version, s);
    ChosenHasNone(offers, chosen, s);
    var best := Search(Times, chosen, s);
    forall t | t in best ensures BestFor(offers, s, t, best[t]) {
      EntryIsBest(offers, chosen, s, t);
    }
    forall t | t != s ensures t in r.value <==> exists p :: Path(offers, s, p, t) {
      if p :| Path(offers, s, p, t) {
        FoundIsBest(offers, chosen, s, p, t);
      }
    }
  }
}
