/** Walks in the rate graph, and what acceptance says about all of them for any monotone multiplication. */
module Walks {
  import opened Options
  import opened Orders
  import opened Reals
  import opened Routing

  /** The currency a walk from `s` stands at after `i` hops. */
  function At(s: Currency, hops: seq<Hop>, i: nat): Currency
    requires i <= |hops|
  {
    if i == 0 then s else hops[i - 1].target
  }

  ghost predicate Walk(s: Currency, hops: seq<Hop>, t: Currency) {
    && At(s, hops, |hops|) == t
    && forall i {:trigger At(s, hops, i)} | 0 <= i < |hops| :: hops[i].source == At(s, hops, i)
  }

  ghost predicate Over(edges: seq<Hop>, hops: seq<Hop>) {
    forall h | h in hops :: h in edges
  }

  ghost predicate Simple(s: Currency, hops: seq<Hop>) {
    forall i, j | 0 <= i < j <= |hops| :: At(s, hops, i) != At(s, hops, j)
  }

  /** A simple path over `edges` from `s` to `t`. */
  ghost predicate Path(edges: seq<Hop>, s: Currency, hops: seq<Hop>, t: Currency) {
    Walk(s, hops, t) && Over(edges, hops) && Simple(s, hops)
  }

  /** The rates of a walk multiplied up from `a`, first hop first. */
  function FoldFrom(mul: Multiplication, a: real, hops: seq<Hop>): real {
    if hops == [] then a else mul(FoldFrom(mul, a, hops[..|hops| - 1]), hops[|hops| - 1].rate)
  }

  function Fold(mul: Multiplication, hops: seq<Hop>): real { FoldFrom(mul, 1.0, hops) }

  ghost predicate Monotone(mul: Multiplication) {
    && (forall a, b :: a >= 0.0 && b >= 0.0 ==> mul(a, b) >= 0.0)
    && (forall a, b, c, d {:trigger mul(a, c), mul(b, d)} ::
      0.0 <= a <= b && 0.0 <= c <= d ==> mul(a, c) <= mul(b, d))
  }

  ghost predicate Positive(edges: seq<Hop>) { forall h | h in edges :: h.rate > 0.0 }

  // ---------------------------------------------------------------- candidates

  /** `q` does not beat `p`. */
  ghost predicate AtLeast(p: Candidate, q: Candidate) { !IsBetter(q, Some(p)) }

  lemma AtLeastTransitive(p: Candidate, q: Candidate, r: Candidate)
    requires AtLeast(p, q) && AtLeast(q, r)
    ensures AtLeast(p, r)
  {
    KeyLessIsTotal();
    var a, b, c := HopKey(p.hops), HopKey(q.hops), HopKey(r.hops);
    assert p.rate == q.rate == r.rate ==> !KeyLess(b, a) && !KeyLess(c, b);
    assert KeyLess(c, a) ==> KeyLess(b, c) || b == c || KeyLess(c, b);
  }

  lemma BetterIsAtLeast(p: Candidate, q: Candidate)
    ensures IsBetter(p, Some(q)) ==> AtLeast(p, q)
    ensures AtLeast(p, p)
  {
    KeyLessIsTotal();
  }

  // ---------------------------------------------------------------- one relaxation

  ghost predicate FromEdge(mul: Multiplication, best: Best, edges: seq<Hop>, t: Currency, c: Candidate) {
    exists e | e in edges :: e.source in best && e.target == t && c == Extend(mul, best[e.source], e)
  }

  ghost predicate Relaxed(mul: Multiplication, best: Best, edges: seq<Hop>, next: Best) {
    && (forall t | t in best :: t in next && AtLeast(next[t], best[t]))
    && (forall e | e in edges && e.source in best ::
      e.target in next && AtLeast(next[e.target], Extend(mul, best[e.source], e)))
    && (forall t | t in next :: (t in best && next[t] == best[t]) || FromEdge(mul, best, edges, t, next[t]))
  }

  /** Relaxation takes, at every currency, the best of what it held and what its edges offer. */
  lemma {:induction false} RelaxIsRelaxed(mul: Multiplication, best: Best, edges: seq<Hop>)
    ensures Relaxed(mul, best, edges, Relax(mul, best, edges))
  {
    if edges == [] {
      forall t | t in best ensures AtLeast(best[t], best[t]) { BetterIsAtLeast(best[t], best[t]); }
    } else {
      var rest, e := edges[..|edges| - 1], edges[|edges| - 1];
      assert edges == rest + [e];
      RelaxIsRelaxed(mul, best, rest);
      RelaxedStep(mul, best, rest, Relax(mul, best, rest), e);
    }
  }

  lemma RelaxedStep(mul: Multiplication, best: Best, rest: seq<Hop>, old_: Best, e: Hop)
    requires Relaxed(mul, best, rest, old_)
    ensures Relaxed(mul, best, rest + [e], RelaxEdge(mul, best, old_, e))
  {
    var next := RelaxEdge(mul, best, old_, e);
    forall t | t in old_ ensures t in next && AtLeast(next[t], old_[t]) {
      BetterIsAtLeast(next[t], old_[t]);
    }
    forall t | t in best ensures t in next && AtLeast(next[t], best[t]) {
      AtLeastTransitive(next[t], old_[t], best[t]);
    }
    forall f | f in rest + [e] && f.source in best
      ensures f.target in next && AtLeast(next[f.target], Extend(mul, best[f.source], f))
    {
      if f in rest {
        AtLeastTransitive(next[f.target], old_[f.target], Extend(mul, best[f.source], f));
      } else {
        BetterIsAtLeast(next[e.target], Extend(mul, best[e.source], e));
      }
    }
    forall t | t in next ensures (t in best && next[t] == best[t]) || FromEdge(mul, best, rest + [e], t, next[t]) {
      if t in old_ && next[t] == old_[t] {
        if FromEdge(mul, best, rest, t, old_[t]) {
          var f :| f in rest && f.source in best && f.target == t && old_[t] == Extend(mul, best[f.source], f);
          assert f in rest + [e];
        }
      } else {
        assert e in rest + [e];
      }
    }
  }

  // ---------------------------------------------------------------- all rounds

  /** Every entry is a walk from the source, with the folded rate of its hops. */
  ghost predicate Walked(mul: Multiplication, edges: seq<Hop>, s: Currency, best: Best) {
    forall t | t in best :: IsWalked(mul, edges, s, t, best[t])
  }

  ghost predicate IsWalked(mul: Multiplication, edges: seq<Hop>, s: Currency, t: Currency, c: Candidate) {
    Walk(s, c.hops, t) && Over(edges, c.hops) && c.rate == Fold(mul, c.hops)
  }

  lemma WalkedStep(mul: Multiplication, edges: seq<Hop>, s: Currency, best: Best)
    requires Walked(mul, edges, s, best)
    ensures Walked(mul, edges, s, Relax(mul, best, edges))
  {
    var next := Relax(mul, best, edges);
    RelaxIsRelaxed(mul, best, edges);
    forall t | t in next ensures IsWalked(mul, edges, s, t, next[t]) {
      if t in best && next[t] == best[t] {
        assert IsWalked(mul, edges, s, t, best[t]);
      } else {
        var e :| e in edges && e.source in best && e.target == t && next[t] == Extend(mul, best[e.source], e);
        ExtendWalked(mul, edges, s, best[e.source], e);
      }
    }
  }

  lemma ExtendWalked(mul: Multiplication, edges: seq<Hop>, s: Currency, c: Candidate, e: Hop)
    requires IsWalked(mul, edges, s, e.source, c) && e in edges
    ensures IsWalked(mul, edges, s, e.target, Extend(mul, c, e))
  {
    WalkExtend(s, c.hops, e.source, e);
    assert (c.hops + [e])[..|c.hops|] == c.hops;
  }

  lemma WalkExtend(s: Currency, hops: seq<Hop>, u: Currency, e: Hop)
    requires e.source == u
    ensures Walk(s, hops, u) <==> Walk(s, hops + [e], e.target)
  {
    var all := hops + [e];
    assert forall i | 0 <= i <= |hops| :: At(s, all, i) == At(s, hops, i);
    if Walk(s, all, e.target) {
      assert all[|hops|].source == At(s, all, |hops|);
      assert forall i | 0 <= i < |hops| :: hops[i] == all[i];
    }
  }

  lemma {:induction false} RoundsWalked(mul: Multiplication, edges: seq<Hop>, s: Currency, n: nat)
    ensures var best := Rounds(mul, Start(s), edges, n);
      Walked(mul, edges, s, best) && s in best && AtLeast(best[s], Candidate(1.0, []))
  {
    if n == 0 {
      BetterIsAtLeast(Candidate(1.0, []), Candidate(1.0, []));
    } else {
      RoundsWalked(mul, edges, s, n - 1);
      var best := Rounds(mul, Start(s), edges, n - 1);
      WalkedStep(mul, edges, s, best);
      RelaxIsRelaxed(mul, best, edges);
      AtLeastTransitive(Relax(mul, best, edges)[s], best[s], Candidate(1.0, []));
    }
  }

  // ---------------------------------------------------------------- domination

  lemma MonotoneAt(mul: Multiplication, a: real, b: real, c: real, d: real)
    requires Monotone(mul) && 0.0 <= a <= b && 0.0 <= c <= d
    ensures 0.0 <= mul(a, c) <= mul(b, d)
  {
  }

  /** The offer that stands for `o` in the collapsed graph. */
  lemma ChosenFor(offers: seq<Hop>, chosen: seq<Hop>, o: Hop) returns (h: Hop)
    requires IsCollapse(offers, chosen) && o in offers
    ensures h in chosen && h in offers && PairOf(h) == PairOf(o) && Dominates(h, o) && h.rate >= o.rate
  {
    assert Covers(chosen, PairOf(o));
    h :| h in chosen && PairOf(h) == PairOf(o);
    assert Dominates(h, o);
  }

  lemma NoEdgeGains(mul: Multiplication, offers: seq<Hop>, chosen: seq<Hop>, best: Best, a: real, e: Hop)
    requires Monotone(mul) && Positive(offers) && IsCollapse(offers, chosen)
    requires Accepted(mul, best, chosen)
    requires e in offers && e.source in best && 0.0 <= a <= best[e.source].rate
    ensures e.target in best && 0.0 <= mul(a, e.rate) <= best[e.target].rate
  {
    var h := ChosenFor(offers, chosen, e);
    MonotoneAt(mul, a, best[h.source].rate, e.rate, h.rate);
    RelaxIsRelaxed(mul, best, chosen);
    var extra := Relax(mul, best, chosen);
    assert AtLeast(extra[h.target], Extend(mul, best[h.source], h));
    assert extra[h.target].rate >= mul(best[h.source].rate, h.rate);
    assert h.target in best && extra[h.target].rate <= best[h.target].rate;
  }

  /** In an accepted state no walk over the offers, started at or below an entry, ends above one. */
  lemma {:induction false} NoWalkGains(mul: Multiplication, offers: seq<Hop>, chosen: seq<Hop>, best: Best,
                                       x: Currency, a: real, hops: seq<Hop>, y: Currency)
    requires Monotone(mul) && Positive(offers) && IsCollapse(offers, chosen)
    requires Accepted(mul, best, chosen)
    requires x in best && 0.0 <= a <= best[x].rate
    requires Walk(x, hops, y) && Over(offers, hops)
    ensures y in best && 0.0 <= FoldFrom(mul, a, hops) <= best[y].rate
    decreases |hops|
  {
    if hops != [] {
      var init, e := SplitLast(offers, x, hops, y);
      NoWalkGains(mul, offers, chosen, best, x, a, init, e.source);
      NoEdgeGains(mul, offers, chosen, best, FoldFrom(mul, a, init), e);
    }
  }

  lemma SplitLast(edges: seq<Hop>, x: Currency, hops: seq<Hop>, y: Currency) returns (init: seq<Hop>, e: Hop)
    requires hops != [] && Walk(x, hops, y) && Over(edges, hops)
    ensures hops == init + [e] && init == hops[..|hops| - 1] && e == hops[|hops| - 1]
    ensures Walk(x, init, e.source) && Over(edges, init) && e in edges && e.target == y
  {
    init, e := hops[..|hops| - 1], hops[|hops| - 1];
    assert hops == init + [e];
    WalkExtend(x, init, e.source, e);
  }

  lemma OffersPositive(edges: seq<Edge>)
    requires AllValid(edges)
    ensures Positive(HopsOf(edges))
  {
    forall h | h in HopsOf(edges) ensures h.rate > 0.0 {
      var i :| 0 <= i < |edges| && HopsOf(edges)[i] == h;
      assert edges[i] in edges;
    }
  }

  /** On acceptance, a currency has a route exactly when a walk over the original edges reaches it; its
      stored hops are such a walk whose folded product is the stored rate; and that rate is
      at least the folded product of every such walk, cyclic or along a discarded edge. */
  lemma RoutesDominateAllWalks(mul: Multiplication, edges: seq<Edge>, version: int, s: Currency, r: Result<Routes>)
    requires Monotone(mul) && AllValid(edges)
    requires Computes(mul, edges, version, s, r) && r.Ok?
    ensures forall t | t in r.value ::
      && t != s && r.value[t].version == version && r.value[t].target == t
      && Walk(s, r.value[t].hops, t) && Over(HopsOf(edges), r.value[t].hops)
      && r.value[t].rate == Fold(mul, r.value[t].hops)
    ensures forall hops, t | t != s && Walk(s, hops, t) && Over(HopsOf(edges), hops) ::
      t in r.value && Fold(mul, hops) <= r.value[t].rate
  {
    var offers := HopsOf(edges);
    OffersPositive(edges);
    var chosen :| IsCollapse(offers, chosen) && r == Decide(mul, chosen, version, s);
    var best := Search(mul, chosen, s);
    RoundsWalked(mul, chosen, s, ROUNDS);
    forall t | t in r.value ensures Over(offers, r.value[t].hops) {
      assert Over(chosen, best[t].hops);
    }
    forall hops, t | t != s && Walk(s, hops, t) && Over(offers, hops)
      ensures t in r.value && Fold(mul, hops) <= r.value[t].rate
    {
      NoWalkGains(mul, offers, chosen, best, s, 1.0, hops, t);
    }
  }

  lemma ProductsOrdered(a: real, b: real, c: real, d: real)
    requires 0.0 <= a <= b && 0.0 <= c <= d
    ensures 0.0 <= a * c <= b * d
  {
    assert a * c <= b * c;
    assert b * c <= b * d;
  }

  /** An exact product followed by a rounding, as in the program's decimal context. */
  function Rounded(round: real -> real): Multiplication { (x: real, y: real) => round(Times(x, y)) }

  ghost predicate MonotoneRounding(round: real -> real) {
    && (forall x :: x >= 0.0 ==> round(x) >= 0.0)
    && (forall x, y :: x <= y ==> round(x) <= round(y))
  }

  lemma RoundedProducts(round: real -> real, a: real, b: real, c: real, d: real)
    requires MonotoneRounding(round) && 0.0 <= a <= b && 0.0 <= c <= d
    ensures 0.0 <= Rounded(round)(a, c) <= Rounded(round)(b, d)
  {
    ProductsOrdered(a, b, c, d);
    RoundedPair(round, a * c, b * d);
  }

  lemma RoundedPair(round: real -> real, x: real, y: real)
    requires MonotoneRounding(round) && 0.0 <= x <= y
    ensures 0.0 <= round(x) <= round(y)
  {
  }

  /** Rounding exact products keeps multiplication monotone, whatever monotone rounding is used. */
  lemma RoundedIsMonotone(round: real -> real)
    requires MonotoneRounding(round)
    ensures Monotone(Rounded(round))
  {
    var mul := Rounded(round);
    forall a: real, b: real | a >= 0.0 && b >= 0.0 ensures mul(a, b) >= 0.0 {
      RoundedProducts(round, a, a, b, b);
    }
    forall a: real, b: real, c: real, d: real | 0.0 <= a <= b && 0.0 <= c <= d ensures mul(a, c) <= mul(b, d) {
      RoundedProducts(round, a, b, c, d);
    }
  }

  // ---------------------------------------------------------------- the set of edges

  lemma {:induction false} CollapseUnique(offers: seq<Hop>, more: seq<Hop>, c: seq<Hop>, d: seq<Hop>)
    requires forall o :: o in offers <==> o in more
    requires IsCollapse(offers, c) && IsCollapse(more, d)
    ensures c == d
  {
    CollapseWithin(offers, more, c, d);
    CollapseWithin(more, offers, d, c);
    SameSortedByPair(c, d);
  }

  lemma CollapseWithin(offers: seq<Hop>, more: seq<Hop>, c: seq<Hop>, d: seq<Hop>)
    requires forall o :: o in offers <==> o in more
    requires IsCollapse(offers, c) && IsCollapse(more, d)
    ensures forall h | h in c :: h in d
  {
    StringLessIsTotal();
    forall h | h in c ensures h in d {
      var g :| g in d && PairOf(g) == PairOf(h);
      assert Dominates(h, g) && Dominates(g, h);
    }
  }

  /** Two strictly sorted sequences with the same elements are equal. */
  lemma {:induction false} SameSortedByPair(c: seq<Hop>, d: seq<Hop>)
    requires SortedByPair(c) && SortedByPair(d)
    requires forall h :: h in c <==> h in d
    ensures c == d
  {
    TupleLessIsTotal();
    BothEmpty(c, d);
    if c != [] {
      assert c[0] in d;
      assert d[0] in c;
      var i :| 0 <= i < |d| && d[i] == c[0];
      var j :| 0 <= j < |c| && c[j] == d[0];
      assert i == 0;
      forall h ensures h in c[1..] <==> h in d[1..] {
        TailMember(c, h);
        TailMember(d, h);
      }
      SameSortedByPair(c[1..], d[1..]);
      assert c == [c[0]] + c[1..] && d == [d[0]] + d[1..];
    }
  }

  lemma BothEmpty(c: seq<Hop>, d: seq<Hop>)
    requires forall h :: h in c <==> h in d
    ensures c == [] <==> d == []
  {
    assert (d != [] ==> d[0] in d) && (c != [] ==> c[0] in c);
  }

  lemma TailMember(c: seq<Hop>, h: Hop)
    requires c != [] && SortedByPair(c)
    ensures h in c[1..] <==> h in c && h != c[0]
  {
    TupleLessIsTotal();
    assert c == [c[0]] + c[1..];
    if h in c[1..] {
      var i :| 0 <= i < |c[1..]| && c[1..][i] == h;
      assert TupleLess(PairKey(PairOf(c[0])), PairKey(PairOf(c[i + 1])));
    }
  }

  /** The result depends only on the set of edges, for any multiplication. */
  lemma RoutesDependOnEdgeSet(mul: Multiplication, edges: seq<Edge>, more: seq<Edge>, version: int, s: Currency,
                              r: Result<Routes>, r': Result<Routes>)
    requires forall e :: e in edges <==> e in more
    requires Computes(mul, edges, version, s, r) && Computes(mul, more, version, s, r')
    ensures r == r'
  {
    assert AllValid(edges) <==> AllValid(more);
    if AllValid(edges) {
      var c :| IsCollapse(HopsOf(edges), c) && r == Decide(mul, c, version, s);
      var d :| IsCollapse(HopsOf(more), d) && r' == Decide(mul, d, version, s);
      SameOffers(edges, more);
      SameOffers(more, edges);
      CollapseUnique(HopsOf(edges), HopsOf(more), c, d);
    }
  }

  lemma SameOffers(edges: seq<Edge>, more: seq<Edge>)
    requires AllValid(edges) && AllValid(more) && forall e | e in edges :: e in more
    ensures forall o | o in HopsOf(edges) :: o in HopsOf(more)
  {
    forall o | o in HopsOf(edges) ensures o in HopsOf(more) {
      var i :| 0 <= i < |edges| && HopsOf(edges)[i] == o;
      assert edges[i] in more;
      var j :| 0 <= j < |more| && more[j] == edges[i];
      assert HopsOf(more)[j] == o;
    }
  }
}
