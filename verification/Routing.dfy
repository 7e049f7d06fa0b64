/** The rate graph and the route computation, step by step (app/routing.py).
    Multiplication is a parameter: the program multiplies in a rounding context,
    and each result about it says which multiplications it covers. */
module Routing {
  import opened Options
  import opened Orders

  datatype Currency = USD | USDC | EUR | PHP | AED

  function Value(c: Currency): string {
    match c
    case USD => "USD"
    case USDC => "USDC"
    case EUR => "EUR"
    case PHP => "PHP"
    case AED => "AED"
  }

  const CURRENCIES: seq<Currency> := [USD, USDC, EUR, PHP, AED]

  /** A rate as it arrives: a number, or one of the infinities and NaNs. */
  datatype Decimal = Finite(value: real) | NonFinite

  datatype Edge = Edge(source: Currency, target: Currency, lp: string, rate: Decimal)

  /** A hop of a route, and an edge whose rate has passed the check. */
  datatype Hop = Hop(source: Currency, target: Currency, lp: string, rate: real)

  datatype Candidate = Candidate(rate: real, hops: seq<Hop>)

  datatype RouteQuote = RouteQuote(version: int, target: Currency, rate: real, hops: seq<Hop>)

  type Best = map<Currency, Candidate>

  type Routes = map<Currency, RouteQuote>

  datatype RoutingError = InvalidRateGraph | RouteNotFound

  datatype Result<+T> = Ok(value: T) | Err(error: RoutingError)

  type Multiplication = (real, real) -> real

  // ---------------------------------------------------------------- keys

  type Pair = (Currency, Currency)

  function PairKey(p: Pair): seq<string> { [Value(p.0), Value(p.1)] }

  function HopTuple(h: Hop): seq<string> { [Value(h.source), Value(h.target), h.lp] }

  function EdgeTuple(e: Edge): seq<string> { [Value(e.source), Value(e.target), e.lp] }

  function HopKey(hops: seq<Hop>): (key: seq<seq<string>>)
    ensures |key| == |hops| && forall i | 0 <= i < |hops| :: key[i] == HopTuple(hops[i])
  {
    seq(|hops|, i requires 0 <= i < |hops| => HopTuple(hops[i]))
  }

  predicate IsBetter(candidate: Candidate, current: Option<Candidate>) {
    || current.None?
    || candidate.rate > current.value.rate
    || (candidate.rate == current.value.rate && KeyLess(HopKey(candidate.hops), HopKey(current.value.hops)))
  }

  // ---------------------------------------------------------------- collapsing parallel edges

  predicate ValidRate(e: Edge) { e.rate.Finite? && e.rate.value > 0.0 }

  predicate AllValid(edges: seq<Edge>) { forall e | e in edges :: ValidRate(e) }

  function HopOf(e: Edge): Hop
    requires ValidRate(e)
  {
    Hop(e.source, e.target, e.lp, e.rate.value)
  }

  function HopsOf(edges: seq<Edge>): (hops: seq<Hop>)
    requires AllValid(edges)
    ensures |hops| == |edges| && forall i | 0 <= i < |edges| :: hops[i] == HopOf(edges[i])
  {
    seq(|edges|, i requires 0 <= i < |edges| => HopOf(edges[i]))
  }

  function PairOf(h: Hop): Pair { (h.source, h.target) }

  /** `h` is offered on its pair at the greatest rate and, among those, by the least provider name. */
  ghost predicate Dominates(h: Hop, offer: Hop) {
    PairOf(offer) == PairOf(h) ==>
      offer.rate < h.rate || (offer.rate == h.rate && !StringLess(offer.lp, h.lp))
  }

  ghost predicate SortedPairs(pairs: seq<Pair>) {
    forall i, j | 0 <= i < j < |pairs| :: TupleLess(PairKey(pairs[i]), PairKey(pairs[j]))
  }

  /** `chosen` keeps exactly one offer of each pair, the dominating one, in the order of the pairs. */
  ghost predicate IsCollapse(offers: seq<Hop>, chosen: seq<Hop>) {
    && SortedByPair(chosen)
    && (forall h | h in chosen :: h in offers && forall o | o in offers :: Dominates(h, o))
    && (forall o | o in offers :: Covers(chosen, PairOf(o)))
  }

  ghost predicate SortedByPair(chosen: seq<Hop>) {
    forall i, j | 0 <= i < j < |chosen| :: TupleLess(PairKey(PairOf(chosen[i])), PairKey(PairOf(chosen[j])))
  }

  ghost predicate Covers(chosen: seq<Hop>, p: Pair) {
    exists h :: h in chosen && PairOf(h) == p
  }

  ghost predicate SortedEdges(edges: seq<Edge>) {
    forall i, j | 0 <= i < j < |edges| :: !TupleLess(EdgeTuple(edges[j]), EdgeTuple(edges[i]))
  }

  function Insert(e: Edge, sorted: seq<Edge>): (r: seq<Edge>)
    ensures forall x :: x in r <==> x == e || x in sorted
  {
    if sorted == [] then [e]
    else if TupleLess(EdgeTuple(sorted[0]), EdgeTuple(e)) then
      assert sorted == [sorted[0]] + sorted[1..];
      [sorted[0]] + Insert(e, sorted[1..])
    else [e] + sorted
  }

  /** Python's `sorted` with the (source, target, lp) key: stable, so the last edge goes in front of its equals. */
  function Sorted(edges: seq<Edge>): (r: seq<Edge>)
    ensures forall x :: x in r <==> x in edges
  {
    if edges == [] then []
    else
      assert edges == [edges[0]] + edges[1..];
      Insert(edges[0], Sorted(edges[1..]))
  }

  // ---------------------------------------------------------------- relaxation

  function Extend(mul: Multiplication, c: Candidate, e: Hop): Candidate {
    Candidate(mul(c.rate, e.rate), c.hops + [e])
  }

  function Get(best: Best, c: Currency): Option<Candidate> {
    if c in best then Some(best[c]) else None
  }

  function RelaxEdge(mul: Multiplication, best: Best, next: Best, e: Hop): Best {
    if e.source !in best then next
    else
      var candidate := Extend(mul, best[e.source], e);
      if IsBetter(candidate, Get(next, e.target)) then next[e.target := candidate] else next
  }

  function Relax(mul: Multiplication, best: Best, edges: seq<Hop>): Best {
    if edges == [] then best
    else RelaxEdge(mul, best, Relax(mul, best, edges[..|edges| - 1]), edges[|edges| - 1])
  }

  function Rounds(mul: Multiplication, best: Best, edges: seq<Hop>, n: nat): Best {
    if n == 0 then best else Relax(mul, Rounds(mul, best, edges, n - 1), edges)
  }

  function Start(source: Currency): Best { map[source := Candidate(1.0, [])] }

  const ROUNDS: nat := |CURRENCIES| - 1

  /** All the rounds, without the early exit. */
  function Search(mul: Multiplication, edges: seq<Hop>, source: Currency): Best {
    Rounds(mul, Start(source), edges, ROUNDS)
  }

  ghost predicate Improves(best: Best, extra: Best) {
    exists t | t in extra :: t !in best || extra[t].rate > best[t].rate
  }

  ghost predicate Accepted(mul: Multiplication, best: Best, edges: seq<Hop>) {
    !Improves(best, Relax(mul, best, edges))
  }

  function Published(best: Best, version: int, source: Currency): Routes {
    map t | t in best && t != source :: RouteQuote(version, t, best[t].rate, best[t].hops)
  }

  /** What `compute_routes` returns for `edges`. */
  ghost predicate Computes(mul: Multiplication, edges: seq<Edge>, version: int, source: Currency, r: Result<Routes>) {
    if !AllValid(edges) then r == Err(InvalidRateGraph)
    else exists chosen :: IsCollapse(HopsOf(edges), chosen) && r == Decide(mul, chosen, version, source)
  }

  ghost function Decide(mul: Multiplication, chosen: seq<Hop>, version: int, source: Currency): Result<Routes> {
    var best := Search(mul, chosen, source);
    if Accepted(mul, best, chosen) then Ok(Published(best, version, source)) else Err(InvalidRateGraph)
  }

  // ---------------------------------------------------------------- the program

  lemma {:induction false} InsertKeepsSorted(e: Edge, sorted: seq<Edge>)
    requires SortedEdges(sorted)
    ensures SortedEdges(Insert(e, sorted))
  {
    TupleLessIsTotal();
    if sorted != [] && TupleLess(EdgeTuple(sorted[0]), EdgeTuple(e)) {
      InsertKeepsSorted(e, sorted[1..]);
      var rest := Insert(e, sorted[1..]);
      forall j | 0 <= j < |rest| ensures !TupleLess(EdgeTuple(rest[j]), EdgeTuple(sorted[0])) {
        assert rest[j] in rest;
        if rest[j] != e {
          var k :| 0 <= k < |sorted[1..]| && sorted[1..][k] == rest[j];
          assert sorted[k + 1] == rest[j];
        }
      }
    }
  }

  lemma {:induction false} SortedIsSorted(edges: seq<Edge>)
    ensures SortedEdges(Sorted(edges))
  {
    if edges != [] {
      SortedIsSorted(edges[1..]);
      InsertKeepsSorted(edges[0], Sorted(edges[1..]));
    }
  }

  lemma ValueInjective(a: Currency, b: Currency)
    ensures Value(a) == Value(b) ==> a == b
  {
    assert Value(USD)[2] == 'D' && Value(EUR)[0] == 'E' && Value(PHP)[0] == 'P' && Value(AED)[0] == 'A';
  }

  /** The order of edges is the order of pairs, then of provider names. */
  lemma TupleOrder(a: Edge, b: Edge)
    ensures (a.source, a.target) == (b.source, b.target) ==> TupleLess(EdgeTuple(a), EdgeTuple(b)) == StringLess(a.lp, b.lp)
    ensures (a.source, a.target) != (b.source, b.target) ==>
      TupleLess(EdgeTuple(a), EdgeTuple(b)) == TupleLess(PairKey((a.source, a.target)), PairKey((b.source, b.target)))
  {
    StringLessIsTotal();
    ValueInjective(a.source, b.source);
    ValueInjective(a.target, b.target);
    assert EdgeTuple(a) == PairKey((a.source, a.target)) + [a.lp];
    assert EdgeTuple(b) == PairKey((b.source, b.target)) + [b.lp];
    if (a.source, a.target) == (b.source, b.target) {
      LexCommonPrefix(StringLess, PairKey((a.source, a.target)), [a.lp], [b.lp]);
    } else {
      var x, y := PairKey((a.source, a.target)), PairKey((b.source, b.target));
      assert x[0] != y[0] || x[1] != y[1];
      LexConnected(StringLess, x, y);
      TupleLessIsTotal();
      if TupleLess(x, y) {
        LexExtend(StringLess, x, y, [a.lp], [b.lp]);
      } else {
        LexExtend(StringLess, y, x, [b.lp], [a.lp]);
        assert TupleLess(EdgeTuple(b), EdgeTuple(a)) && TupleLess(y, x);
      }
    }
  }

  /** What the dictionary holds after the edges `seen`, which came in sorted order. */
  ghost predicate Selected(seen: seq<Edge>, order: seq<Pair>, selected: map<Pair, Hop>) {
    && AllValid(seen)
    && SortedPairs(order)
    && (forall p :: p in order <==> p in selected)
    && (forall p | p in selected :: PairOf(selected[p]) == p && Holds(seen, selected[p]))
    && (forall k | 0 <= k < |seen| :: (seen[k].source, seen[k].target) in selected)
  }

  ghost predicate Holds(seen: seq<Edge>, h: Hop)
    requires AllValid(seen)
  {
    && Edge(h.source, h.target, h.lp, Finite(h.rate)) in seen
    && forall k | 0 <= k < |seen| :: Dominates(h, HopOf(seen[k]))
  }

  lemma HoldsStep(edges: seq<Edge>, i: nat, h: Hop)
    requires i < |edges| && AllValid(edges[..i]) && ValidRate(edges[i])
    requires Holds(edges[..i], h) && Dominates(h, HopOf(edges[i]))
    ensures AllValid(edges[..i + 1]) && Holds(edges[..i + 1], h)
  {
    assert edges[..i + 1] == edges[..i] + [edges[i]];
  }

  /** The edge at `i` wins its pair when it is the first offer there or beats the one held. */
  lemma HoldsNew(edges: seq<Edge>, i: nat, held: Option<Hop>)
    requires i < |edges| && AllValid(edges[..i]) && ValidRate(edges[i])
    requires held.None? ==>
      forall k | 0 <= k < i :: (edges[k].source, edges[k].target) != (edges[i].source, edges[i].target)
    requires held.Some? ==>
      PairOf(held.value) == PairOf(HopOf(edges[i])) && Holds(edges[..i], held.value) && edges[i].rate.value > held.value.rate
    ensures AllValid(edges[..i + 1]) && Holds(edges[..i + 1], HopOf(edges[i]))
  {
    var next, e := edges[..i + 1], HopOf(edges[i]);
    assert next == edges[..i] + [edges[i]];
    StringLessIsTotal();
    forall k | 0 <= k < |next| ensures Dominates(e, HopOf(next[k])) {
      if k < i && held.Some? {
        assert Dominates(held.value, HopOf(edges[..i][k]));
      }
    }
  }

  lemma OthersHold(edges: seq<Edge>, i: nat, order: seq<Pair>, selected: map<Pair, Hop>, p: Pair)
    requires i < |edges| && ValidRate(edges[i]) && p == (edges[i].source, edges[i].target)
    requires Selected(edges[..i], order, selected)
    ensures AllValid(edges[..i + 1])
    ensures forall q | q in selected && q != p :: Holds(edges[..i + 1], selected[q])
    ensures forall k | 0 <= k <= i :: (edges[k].source, edges[k].target) in selected || (edges[k].source, edges[k].target) == p
  {
    assert edges[..i + 1] == edges[..i] + [edges[i]];
    assert forall k | 0 <= k < i :: edges[..i][k] == edges[k];
    forall q | q in selected && q != p ensures Holds(edges[..i + 1], selected[q]) {
      HoldsStep(edges, i, selected[q]);
    }
  }

  /** The held offer came from an edge before `i`. */
  lemma HeldBefore(edges: seq<Edge>, i: nat, h: Hop)
    requires i < |edges| && SortedEdges(edges) && AllValid(edges[..i]) && Holds(edges[..i], h)
    ensures PairOf(h) == (edges[i].source, edges[i].target) ==> !StringLess(edges[i].lp, h.lp)
    ensures PairOf(h) != (edges[i].source, edges[i].target) ==>
      TupleLess(PairKey(PairOf(h)), PairKey((edges[i].source, edges[i].target)))
  {
    var k :| 0 <= k < i && edges[..i][k] == Edge(h.source, h.target, h.lp, Finite(h.rate));
    OrderedPair(edges[k], edges[i]);
  }

  lemma SelectNew(edges: seq<Edge>, i: nat, order: seq<Pair>, selected: map<Pair, Hop>, p: Pair)
    requires i < |edges| && SortedEdges(edges) && ValidRate(edges[i]) && p == (edges[i].source, edges[i].target)
    requires Selected(edges[..i], order, selected) && p !in selected
    ensures Selected(edges[..i + 1], order + [p], selected[p := HopOf(edges[i])])
  {
    OthersHold(edges, i, order, selected, p);
    assert forall k | 0 <= k < i :: edges[..i][k] == edges[k];
    HoldsNew(edges, i, None);
    forall q | q in order ensures TupleLess(PairKey(q), PairKey(p)) {
      HeldBefore(edges, i, selected[q]);
    }
  }

  lemma SelectOld(edges: seq<Edge>, i: nat, order: seq<Pair>, selected: map<Pair, Hop>, p: Pair)
    requires i < |edges| && SortedEdges(edges) && ValidRate(edges[i]) && p == (edges[i].source, edges[i].target)
    requires Selected(edges[..i], order, selected) && p in selected
    ensures Selected(edges[..i + 1], order,
      if edges[i].rate.value > selected[p].rate then selected[p := HopOf(edges[i])] else selected)
  {
    OthersHold(edges, i, order, selected, p);
    if edges[i].rate.value > selected[p].rate {
      HoldsNew(edges, i, Some(selected[p]));
    } else {
      HeldBefore(edges, i, selected[p]);
      HoldsStep(edges, i, selected[p]);
    }
  }

  lemma OrderedPair(a: Edge, b: Edge)
    requires !TupleLess(EdgeTuple(b), EdgeTuple(a))
    ensures (a.source, a.target) == (b.source, b.target) ==> !StringLess(b.lp, a.lp)
    ensures (a.source, a.target) != (b.source, b.target) ==> TupleLess(PairKey((a.source, a.target)), PairKey((b.source, b.target)))
  {
    TupleOrder(b, a);
    TupleLessIsTotal();
    if (a.source, a.target) != (b.source, b.target) {
      ValueInjective(a.source, b.source);
      ValueInjective(a.target, b.target);
      var x, y := PairKey((a.source, a.target)), PairKey((b.source, b.target));
      assert x[0] != y[0] || x[1] != y[1];
      assert TupleLess(x, y) || x == y || TupleLess(y, x);
    }
  }

  method CollapsedEdges(edges: seq<Edge>) returns (r: Result<seq<Hop>>)
    ensures r.Err? <==> !AllValid(edges)
    ensures r.Err? ==> r.error == InvalidRateGraph
    ensures r.Ok? ==> IsCollapse(HopsOf(edges), r.value)
  {
    var sorted := Sorted(edges);
    SortedIsSorted(edges);
    var order: seq<Pair>, selected: map<Pair, Hop> := [], map[];
    for i := 0 to |sorted|
      invariant Selected(sorted[..i], order, selected)
    {
      var edge := sorted[i];
      if !ValidRate(edge) {
        assert edge in edges;
        return Err(InvalidRateGraph);
      }
      var key := (edge.source, edge.target);
      if key !in selected {
        SelectNew(sorted, i, order, selected, key);
        order := order + [key];
        selected := selected[key := HopOf(edge)];
      } else {
        SelectOld(sorted, i, order, selected, key);
        if edge.rate.value > selected[key].rate {
          selected := selected[key := HopOf(edge)];
        }
      }
    }
    assert sorted[..|sorted|] == sorted;
    r := Ok(seq(|order|, i requires 0 <= i < |order| => selected[order[i]]));
    SelectedIsCollapse(edges, sorted, order, selected, r.value);
  }

  lemma SelectedIsCollapse(edges: seq<Edge>, sorted: seq<Edge>, order: seq<Pair>, selected: map<Pair, Hop>, chosen: seq<Hop>)
    requires forall x :: x in sorted <==> x in edges
    requires Selected(sorted, order, selected)
    requires |chosen| == |order| && forall i | 0 <= i < |order| :: chosen[i] == selected[order[i]]
    ensures AllValid(edges) && IsCollapse(HopsOf(edges), chosen)
  {
    var offers := HopsOf(edges);
    assert forall i | 0 <= i < |order| :: order[i] in selected && PairOf(chosen[i]) == order[i];
    forall h | h in chosen ensures h in offers && forall o | o in offers :: Dominates(h, o) {
      HeldIsOffered(edges, sorted, h);
    }
    forall o | o in offers ensures Covers(chosen, PairOf(o)) {
      var j :| 0 <= j < |offers| && offers[j] == o;
      assert edges[j] in sorted;
      var k :| 0 <= k < |sorted| && sorted[k] == edges[j];
      var i :| 0 <= i < |order| && order[i] == PairOf(o);
      assert chosen[i] in chosen && PairOf(chosen[i]) == PairOf(o);
    }
  }

  lemma HeldIsOffered(edges: seq<Edge>, sorted: seq<Edge>, h: Hop)
    requires forall x :: x in sorted <==> x in edges
    requires AllValid(sorted) && AllValid(edges) && Holds(sorted, h)
    ensures h in HopsOf(edges) && forall o | o in HopsOf(edges) :: Dominates(h, o)
  {
    var offers := HopsOf(edges);
    var j :| 0 <= j < |edges| && edges[j] == Edge(h.source, h.target, h.lp, Finite(h.rate));
    assert offers[j] == h;
    forall o | o in offers ensures Dominates(h, o) {
      var j :| 0 <= j < |offers| && offers[j] == o;
      assert edges[j] in sorted;
    }
  }

  method RelaxAll(mul: Multiplication, best: Best, edges: seq<Hop>) returns (next: Best)
    ensures next == Relax(mul, best, edges)
  {
    next := best;
    for i := 0 to |edges|
      invariant next == Relax(mul, best, edges[..i])
    {
      assert edges[..i + 1][..i] == edges[..i];
      var edge := edges[i];
      if edge.source in best {
        var candidate := Extend(mul, best[edge.source], edge);
        if IsBetter(candidate, Get(next, edge.target)) {
          next := next[edge.target := candidate];
        }
      }
    }
    assert edges[..|edges|] == edges;
  }

  /** A round that changes nothing is the last: the early exit loses nothing. */
  lemma {:induction false} FixpointStays(mul: Multiplication, best: Best, edges: seq<Hop>, k: nat, n: nat)
    requires k <= n
    requires Rounds(mul, best, edges, k + 1) == Rounds(mul, best, edges, k)
    ensures Rounds(mul, best, edges, n) == Rounds(mul, best, edges, k)
  {
    if k < n {
      FixpointStays(mul, best, edges, k, n - 1);
    }
  }

  method ComputeRoutes(mul: Multiplication, edges: seq<Edge>, version: int, source: Currency)
    returns (r: Result<Routes>)
    ensures Computes(mul, edges, version, source, r)
  {
    var collapsed := CollapsedEdges(edges);
    if collapsed.Err? {
      return Err(InvalidRateGraph);
    }
    var chosen := collapsed.value;
    var best := Start(source);
    var i := 0;
    while i < |CURRENCIES| - 1
      invariant 0 <= i <= ROUNDS
      invariant best == Rounds(mul, Start(source), chosen, i)
    {
      var nextBest := RelaxAll(mul, best, chosen);
      if nextBest == best {
        FixpointStays(mul, Start(source), chosen, i, ROUNDS);
        break;
      }
      best := nextBest;
      i := i + 1;
    }
    assert best == Search(mul, chosen, source);
    var extra := RelaxAll(mul, best, chosen);
    if exists t | t in extra :: t !in best || extra[t].rate > best[t].rate {
      r := Err(InvalidRateGraph);
    } else {
      r := Ok(Published(best, version, source));
    }
    assert r == Decide(mul, chosen, version, source);
  }
}
