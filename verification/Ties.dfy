/** How ties between routes are broken, told by the spelling of currencies and providers and without the program's keys. */
module Ties {
  import opened Orders
  import opened Reals
  import opened Routing
  import opened Walks
  import opened ExactRoutes
  import opened BoundedWalks
  import opened ContextRoutes

  // ---------------------------------------------------------------- the orders, spelled out

  /** The currencies in alphabetical order: AED, EUR, PHP, USD, USDC. */
  function Alphabetical(c: Currency): nat {
    match c case AED => 0 case EUR => 1 case PHP => 2 case USD => 3 case USDC => 4
  }

  /** The first difference of two texts is at `k`: there `a` has the lower code point, or has ended. */
  ghost predicate TextBeforeAt(a: string, b: string, k: nat) {
    && k <= |a| && k < |b| && a[..k] == b[..k] && (k == |a| || a[k] as int < b[k] as int)
  }

  ghost predicate TextBefore(a: string, b: string) { exists k: nat :: TextBeforeAt(a, b, k) }

  /** The source decides, then the target, then the provider's name. */
  ghost predicate HopBefore(g: Hop, h: Hop) {
    || Alphabetical(g.source) < Alphabetical(h.source)
    || (g.source == h.source && Alphabetical(g.target) < Alphabetical(h.target))
    || (g.source == h.source && g.target == h.target && TextBefore(g.lp, h.lp))
  }

  predicate SameNames(g: Hop, h: Hop) { g.source == h.source && g.target == h.target && g.lp == h.lp }

  /** The first hop at which the two routes differ is `i`, and there `p` comes before `q`. */
  ghost predicate BeforeAt(p: seq<Hop>, q: seq<Hop>, i: nat) {
    && i < |p| && i < |q| && (forall j | 0 <= j < i :: SameNames(p[j], q[j])) && HopBefore(p[i], q[i])
  }

  ghost predicate Before(p: seq<Hop>, q: seq<Hop>) { exists i: nat :: BeforeAt(p, q, i) }

  // ---------------------------------------------------------------- what the keys say

  lemma {:induction false} FirstDifference<T(!new)>(less: (T, T) -> bool, a: seq<T>, b: seq<T>) returns (k: nat)
    requires LexLess(less, a, b)
    ensures k <= |a| && k < |b| && a[..k] == b[..k]
    ensures k < |a| ==> a[k] != b[k] && less(a[k], b[k])
  {
    if a == [] || a[0] != b[0] {
      k := 0;
    } else {
      var rest := FirstDifference(less, a[1..], b[1..]);
      k := rest + 1;
      assert a[..k] == [a[0]] + a[1..][..rest] && b[..k] == [b[0]] + b[1..][..rest];
    }
  }

  lemma StringsBefore(a: string, b: string)
    requires StringLess(a, b)
    ensures TextBefore(a, b)
  {
    var k := FirstDifference(CharLess, a, b);
    assert TextBeforeAt(a, b, k);
  }

  lemma SpellingOrder(a: Currency, b: Currency)
    requires StringLess(Value(a), Value(b))
    ensures Alphabetical(a) < Alphabetical(b)
  {
    var k := FirstDifference(CharLess, Value(a), Value(b));
    assert Value(a)[..k] == Value(b)[..k] ==> forall j | 0 <= j < k :: Value(a)[j] == Value(b)[j] by {
      forall j | 0 <= j < k && Value(a)[..k] == Value(b)[..k] ensures Value(a)[j] == Value(b)[j] {
        assert Value(a)[..k][j] == Value(b)[..k][j];
      }
    }
  }

  lemma HopsBefore(g: Hop, h: Hop)
    requires TupleLess(HopTuple(g), HopTuple(h))
    ensures HopBefore(g, h)
  {
    var a, b := HopTuple(g), HopTuple(h);
    var k := FirstDifference(StringLess, a, b);
    ValueInjective(g.source, h.source);
    ValueInjective(g.target, h.target);
    assert forall j | 0 <= j < k :: a[..k][j] == b[..k][j];
    assert k >= 1 ==> a[0] == b[0];
    assert k >= 2 ==> a[1] == b[1];
    hide StringLess, Value;
    if k == 0 {
      SpellingOrder(g.source, h.source);
    } else if k == 1 {
      SpellingOrder(g.target, h.target);
    } else {
      StringsBefore(g.lp, h.lp);
    }
  }

  lemma SameTuples(g: Hop, h: Hop)
    requires HopTuple(g) == HopTuple(h)
    ensures SameNames(g, h)
  {
    ValueInjective(g.source, h.source);
    ValueInjective(g.target, h.target);
    assert HopTuple(g)[0] == HopTuple(h)[0] && HopTuple(g)[1] == HopTuple(h)[1] && HopTuple(g)[2] == HopTuple(h)[2];
  }

  /** Of two routes of which neither continues the other, the lesser key comes before. */
  lemma KeysBefore(p: seq<Hop>, q: seq<Hop>)
    requires KeyLess(HopKey(p), HopKey(q)) && !(HopKey(p) <= HopKey(q))
    ensures Before(p, q)
  {
    var a, b := HopKey(p), HopKey(q);
    var k := FirstDifference(TupleLess, a, b);
    assert k < |p|;
    hide TupleLess, HopTuple;
    forall j | 0 <= j < k ensures SameNames(p[j], q[j]) {
      assert a[..k][j] == b[..k][j];
      SameTuples(p[j], q[j]);
    }
    HopsBefore(p[k], q[k]);
    assert BeforeAt(p, q, k);
  }

  // ---------------------------------------------------------------- routes of the same names

  lemma SwapHop(offers: seq<Hop>, s: Currency, p: seq<Hop>, t: Currency, i: nat, h: Hop)
    requires Path(offers, s, p, t) && i < |p| && h in offers && PairOf(h) == PairOf(p[i])
    ensures Path(offers, s, p[i := h], t)
  {
    var q := p[i := h];
    assert forall j | 0 <= j <= |p| :: At(s, q, j) == At(s, p, j);
    hide At;
    forall j {:trigger At(s, q, j)} | 0 <= j < |q| ensures q[j].source == At(s, q, j) {
      assert p[j].source == At(s, p, j);
    }
    forall x | x in q ensures x in offers {
      var j :| 0 <= j < |q| && q[j] == x;
      assert j != i ==> p[j] in p;
    }
  }

  lemma SwapGains(p: seq<Hop>, i: nat, h: Hop)
    requires i < |p| && h.rate > p[i].rate && Product(p[..i]) > 0.0 && Product(p[i + 1..]) > 0.0
    ensures Product(p[i := h]) > Product(p)
  {
    var front, back := p[..i], p[i + 1..];
    assert p == (front + [p[i]]) + back && p[i := h] == (front + [h]) + back;
    ProductConcat(front + [p[i]], back);
    ProductConcat(front + [h], back);
    ProductExtend(front, p[i]);
    ProductExtend(front, h);
    hide Product, Times;
    Commutes(Product(front), p[i].rate);
    Commutes(Product(front), h.rate);
    TimesStrict(p[i].rate, h.rate, Product(front));
    TimesStrict(Times(Product(front), p[i].rate), Times(Product(front), h.rate), Product(back));
  }

  lemma PartsPositive(offers: seq<Hop>, p: seq<Hop>, i: nat)
    requires Positive(offers) && Over(offers, p) && i < |p|
    ensures Product(p[..i]) > 0.0 && Product(p[i + 1..]) > 0.0
  {
    ProductPositive(offers, p[..i]);
    ProductPositive(offers, p[i + 1..]);
  }

  /** A best route differs from any other route of its product in the names of some hop. */
  lemma SameNamesSameRoute(offers: seq<Hop>, s: Currency, t: Currency, p: seq<Hop>, q: seq<Hop>)
    requires Positive(offers) && BestRoute(offers, s, t, p) && Path(offers, s, q, t) && Product(q) == Product(p)
    requires |p| == |q| && forall i | 0 <= i < |p| :: SameNames(p[i], q[i])
    ensures p == q
  {
    if i :| 0 <= i < |p| && p[i] != q[i] {
      hide Product, Path;
      assert p[i].rate != q[i].rate;
      BetterSwap(offers, s, t, p, q, i);
      assert false;
    }
  }

  lemma BetterSwap(offers: seq<Hop>, s: Currency, t: Currency, p: seq<Hop>, q: seq<Hop>, i: nat)
    requires Positive(offers) && Path(offers, s, p, t) && Path(offers, s, q, t) && Product(q) == Product(p)
    requires i < |p| && i < |q| && SameNames(p[i], q[i]) && p[i].rate != q[i].rate
    ensures exists r :: Path(offers, s, r, t) && Product(r) > Product(p)
  {
    PartsPositive(offers, p, i);
    PartsPositive(offers, q, i);
    assert p[i] in p && q[i] in q;
    hide Product, Positive;
    if q[i].rate > p[i].rate {
      SwapHop(offers, s, p, t, i, q[i]);
      SwapGains(p, i, q[i]);
    } else {
      SwapHop(offers, s, q, t, i, p[i]);
      SwapGains(q, i, p[i]);
    }
  }

  // ---------------------------------------------------------------- main result

  lemma KeyPrefixIsAll(s: Currency, p: seq<Hop>, q: seq<Hop>, t: Currency)
    requires Walk(s, p, t) && Walk(s, q, t) && Simple(s, q) && HopKey(p) <= HopKey(q)
    ensures |p| == |q| && forall i | 0 <= i < |p| :: SameNames(p[i], q[i])
  {
    forall i | 0 <= i < |p| ensures SameNames(p[i], q[i]) {
      assert HopKey(p)[i] == HopKey(q)[i];
      hide HopTuple;
      SameTuples(p[i], q[i]);
    }
    hide HopKey, HopTuple, SameNames;
    if |p| < |q| { EndsEarly(s, p, q, t); }
  }

  lemma EndsEarly(s: Currency, p: seq<Hop>, q: seq<Hop>, t: Currency)
    requires Walk(s, p, t) && Walk(s, q, t) && |p| < |q| && forall i | 0 <= i < |p| :: p[i].target == q[i].target
    ensures !Simple(s, q)
  {
    assert At(s, q, |p|) == At(s, p, |p|) == t == At(s, q, |q|);
  }

  /** A best route comes before every other simple path of its product. */
  lemma BestComesFirst(offers: seq<Hop>, s: Currency, t: Currency, p: seq<Hop>, q: seq<Hop>)
    requires Positive(offers) && BestRoute(offers, s, t, p)
    requires Path(offers, s, q, t) && Product(q) == Product(p) && q != p
    ensures Before(p, q)
  {
    hide Product, HopKey, KeyLess, Before;
    var a, b := HopKey(p), HopKey(q);
    if a <= b {
      KeyPrefixIsAll(s, p, q, t);
      SameNamesSameRoute(offers, s, t, p, q);
    } else {
      KeyConnected(a, b);
      KeysBefore(p, q);
    }
  }

  /** Among the simple paths of the greatest product the published route is the first: at the first hop where another one
      differs from it in source, target or provider, the published route has the alphabetically lesser source, else the
      lesser target, else the provider's name that comes first by code points. */
  lemma TiesGoByName(edges: seq<Edge>, version: int, s: Currency, r: Result<Routes>)
    requires AllValid(edges) && Computes(Times, edges, version, s, r) && r.Ok?
    ensures forall t, q | t in r.value && Path(HopsOf(edges), s, q, t) && Product(q) == r.value[t].rate && q != r.value[t].hops ::
      Before(r.value[t].hops, q)
  {
    var offers := HopsOf(edges);
    OffersPositive(edges);
    PublishedRoutesAreBest(edges, version, s, r);
    hide Computes, Product, BestRoute, Path, Before, Positive;
    forall t, q | t in r.value && Path(offers, s, q, t) && Product(q) == r.value[t].rate && q != r.value[t].hops
      ensures Before(r.value[t].hops, q)
    {
      BestComesFirst(offers, s, t, r.value[t].hops, q);
    }
  }

  /** In the program's own arithmetic, for rates of at most seven digits. */
  lemma ContextTiesGoByName(edges: seq<Edge>, version: int, s: Currency, r: Result<Routes>)
    requires ShortRates(edges) && Computes(Rounded(InContext), edges, version, s, r) && r.Ok?
    ensures AllValid(edges)
    ensures forall t, q | t in r.value && Path(HopsOf(edges), s, q, t) && Product(q) == r.value[t].rate && q != r.value[t].hops ::
      Before(r.value[t].hops, q)
  {
    hide InContext, Computes, Agrees, Path, Product, ShortRates, Before;
    ShortRatesAgree(edges, s);
    AgreementCarriesOver(Rounded(InContext), edges, version, s, r);
    TiesGoByName(edges, version, s, r);
  }
}
