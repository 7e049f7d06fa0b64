/** What the rounds see, and so exactly which graphs are rejected, for any monotone multiplication; and when another
    multiplication decides as the exact one does. */
module BoundedWalks {
  import opened Reals
  import opened Routing
  import opened Walks

  ghost predicate OfferedWalk(offers: seq<Hop>, s: Currency, hops: seq<Hop>, t: Currency) {
    Walk(s, hops, t) && Over(offers, hops)
  }

  // ---------------------------------------------------------------- rounds and the length of walks

  /** After `n` rounds no entry has more than `n` hops. */
  lemma {:induction false} RoundsShort(mul: Multiplication, edges: seq<Hop>, s: Currency, n: nat)
    ensures forall t | t in Rounds(mul, Start(s), edges, n) :: |Rounds(mul, Start(s), edges, n)[t].hops| <= n
  {
    if n > 0 {
      RoundsShort(mul, edges, s, n - 1);
      var best := Rounds(mul, Start(s), edges, n - 1);
      RelaxIsRelaxed(mul, best, edges);
      hide Relax;
      var next := Relax(mul, best, edges);
      forall t | t in next ensures |next[t].hops| <= n {
        if !(t in best && next[t] == best[t]) { assert FromEdge(mul, best, edges, t, next[t]); }
      }
    }
  }

  /** `best` has an entry for `t` worth at least `a`. */
  predicate Reached(best: Best, t: Currency, a: real) { t in best && 0.0 <= a <= best[t].rate }

  lemma ReachedByEdge(mul: Multiplication, offers: seq<Hop>, chosen: seq<Hop>, best: Best, a: real, e: Hop)
    requires Monotone(mul) && Positive(offers) && IsCollapse(offers, chosen)
    requires e in offers && Reached(best, e.source, a)
    ensures Reached(Relax(mul, best, chosen), e.target, mul(a, e.rate))
  {
    var h := ChosenFor(offers, chosen, e);
    MonotoneAt(mul, a, best[h.source].rate, e.rate, h.rate);
    RelaxIsRelaxed(mul, best, chosen);
    assert AtLeast(Relax(mul, best, chosen)[h.target], Extend(mul, best[h.source], h));
  }

  lemma ReachedStays(mul: Multiplication, chosen: seq<Hop>, best: Best, t: Currency, a: real)
    requires Reached(best, t, a)
    ensures Reached(Relax(mul, best, chosen), t, a)
  {
    RelaxIsRelaxed(mul, best, chosen);
  }

  lemma FoldExtend(mul: Multiplication, hops: seq<Hop>, e: Hop)
    ensures Fold(mul, hops + [e]) == mul(Fold(mul, hops), e.rate)
  {
    assert (hops + [e])[..|hops|] == hops;
  }

  lemma StartReached(mul: Multiplication, s: Currency, t: Currency)
    requires Walk(s, [], t)
    ensures Reached(Start(s), t, Fold(mul, []))
  {
  }

  /** `n` rounds dominate every walk of at most `n` hops. */
  lemma {:induction false} RoundsDominate(mul: Multiplication, offers: seq<Hop>, chosen: seq<Hop>, s: Currency, n: nat,
                                          hops: seq<Hop>, t: Currency)
    requires Monotone(mul) && Positive(offers) && IsCollapse(offers, chosen)
    requires OfferedWalk(offers, s, hops, t) && |hops| <= n
    ensures Reached(Rounds(mul, Start(s), chosen, n), t, Fold(mul, hops))
    decreases n
  {
    hide Relax, Monotone, IsCollapse, Positive, Fold, Start, Walk, Over, Reached;
    if n == 0 {
      assert hops == [];
      StartReached(mul, s, t);
    } else {
      var best := Rounds(mul, Start(s), chosen, n - 1);
      if |hops| < n {
        RoundsDominate(mul, offers, chosen, s, n - 1, hops, t);
        ReachedStays(mul, chosen, best, t, Fold(mul, hops));
      } else {
        var init, e := SplitLast(offers, s, hops, t);
        RoundsDominate(mul, offers, chosen, s, n - 1, init, e.source);
        ReachedByEdge(mul, offers, chosen, best, Fold(mul, init), e);
        FoldExtend(mul, init, e);
      }
    }
  }

  // ---------------------------------------------------------------- exactly which graphs are rejected

  /** A walk of one hop more than the rounds that is worth more than every walk within the rounds. */
  ghost predicate LongWalkGains(mul: Multiplication, offers: seq<Hop>, s: Currency, hops: seq<Hop>, t: Currency) {
    && OfferedWalk(offers, s, hops, t) && |hops| == ROUNDS + 1
    && forall p | OfferedWalk(offers, s, p, t) && |p| <= ROUNDS :: Fold(mul, p) < Fold(mul, hops)
  }

  lemma OverOffers(offers: seq<Hop>, chosen: seq<Hop>, hops: seq<Hop>)
    requires IsCollapse(offers, chosen) && Over(chosen, hops)
    ensures Over(offers, hops)
  {
  }

  /** Every entry after `n` rounds is a walk of at most `n` hops over the original edges. */
  lemma EntryIsWalk(mul: Multiplication, offers: seq<Hop>, chosen: seq<Hop>, s: Currency, n: nat, t: Currency)
    requires IsCollapse(offers, chosen) && t in Rounds(mul, Start(s), chosen, n)
    ensures var c := Rounds(mul, Start(s), chosen, n)[t];
      OfferedWalk(offers, s, c.hops, t) && |c.hops| <= n && c.rate == Fold(mul, c.hops)
  {
    RoundsWalked(mul, chosen, s, n);
    RoundsShort(mul, chosen, s, n);
    hide Rounds, Fold, IsCollapse;
    var c := Rounds(mul, Start(s), chosen, n)[t];
    assert IsWalked(mul, chosen, s, t, c);
    OverOffers(offers, chosen, c.hops);
  }

  /** What exceeds the entry after `n` rounds exceeds every walk of at most `n` hops. */
  lemma WalksBelow(mul: Multiplication, offers: seq<Hop>, chosen: seq<Hop>, s: Currency, n: nat, t: Currency, bound: real)
    requires Monotone(mul) && Positive(offers) && IsCollapse(offers, chosen)
    requires var best := Rounds(mul, Start(s), chosen, n); t !in best || best[t].rate < bound
    ensures forall p | OfferedWalk(offers, s, p, t) && |p| <= n :: Fold(mul, p) < bound
  {
    hide Rounds, Monotone, IsCollapse, Positive, Fold, OfferedWalk;
    forall p | OfferedWalk(offers, s, p, t) && |p| <= n ensures Fold(mul, p) < bound {
      RoundsDominate(mul, offers, chosen, s, n, p, t);
    }
  }

  /** An entry of the extra relaxation that improves is such a walk. */
  lemma ImprovementIsLongWalk(mul: Multiplication, offers: seq<Hop>, chosen: seq<Hop>, s: Currency, t: Currency)
    requires Monotone(mul) && Positive(offers) && IsCollapse(offers, chosen)
    requires var best, extra := Search(mul, chosen, s), Rounds(mul, Start(s), chosen, ROUNDS + 1);
      t in extra && (t !in best || extra[t].rate > best[t].rate)
    ensures LongWalkGains(mul, offers, s, Rounds(mul, Start(s), chosen, ROUNDS + 1)[t].hops, t)
  {
    hide Rounds, Monotone, IsCollapse, Positive, Fold, OfferedWalk;
    var found := Rounds(mul, Start(s), chosen, ROUNDS + 1)[t];
    EntryIsWalk(mul, offers, chosen, s, ROUNDS + 1, t);
    WalksBelow(mul, offers, chosen, s, ROUNDS, t, found.rate);
    assert |found.hops| <= ROUNDS ==> Fold(mul, found.hops) < found.rate;
  }

  lemma LongWalkImproves(mul: Multiplication, offers: seq<Hop>, chosen: seq<Hop>, s: Currency, hops: seq<Hop>, t: Currency)
    requires Monotone(mul) && Positive(offers) && IsCollapse(offers, chosen) && LongWalkGains(mul, offers, s, hops, t)
    ensures var best, extra := Search(mul, chosen, s), Rounds(mul, Start(s), chosen, ROUNDS + 1);
      t in extra && (t !in best || extra[t].rate > best[t].rate)
  {
    hide Rounds, Monotone, IsCollapse, Positive, Fold, OfferedWalk;
    RoundsDominate(mul, offers, chosen, s, ROUNDS + 1, hops, t);
    if t in Search(mul, chosen, s) {
      EntryIsWalk(mul, offers, chosen, s, ROUNDS, t);
    }
  }

  /** For any monotone multiplication, rounded ones included: a graph of valid rates is rejected if and only if some walk
      of five hops over the original edges is worth more than every walk of at most four hops to the same currency. */
  lemma RejectedIffLongWalkGains(mul: Multiplication, edges: seq<Edge>, version: int, s: Currency, r: Result<Routes>)
    requires Monotone(mul) && AllValid(edges) && Computes(mul, edges, version, s, r)
    ensures r.Err? <==> exists hops, t :: LongWalkGains(mul, HopsOf(edges), s, hops, t)
  {
    var offers := HopsOf(edges);
    OffersPositive(edges);
    var chosen :| IsCollapse(offers, chosen) && r == Decide(mul, chosen, version, s);
    var best, extra := Search(mul, chosen, s), Rounds(mul, Start(s), chosen, ROUNDS + 1);
    assert extra == Relax(mul, best, chosen);
    hide Rounds, Relax, Monotone, IsCollapse, LongWalkGains;
    if r.Err? {
      var t :| t in extra && (t !in best || extra[t].rate > best[t].rate);
      ImprovementIsLongWalk(mul, offers, chosen, s, t);
    }
    forall hops, t | LongWalkGains(mul, offers, s, hops, t) ensures r.Err? {
      LongWalkImproves(mul, offers, chosen, s, hops, t);
    }
  }

  // ---------------------------------------------------------------- deciding as the exact products do

  /** `mul` makes no difference on the walks that the computation looks at. */
  ghost predicate Agrees(mul: Multiplication, offers: seq<Hop>, s: Currency) {
    forall hops, t | OfferedWalk(offers, s, hops, t) && |hops| <= ROUNDS + 1 :: Fold(mul, hops) == Fold(Times, hops)
  }

  ghost predicate SameExtensions(mul: Multiplication, best: Best, edges: seq<Hop>) {
    forall e | e in edges && e.source in best :: Extend(mul, best[e.source], e) == Extend(Times, best[e.source], e)
  }

  lemma {:induction false} SameRelax(mul: Multiplication, best: Best, edges: seq<Hop>)
    requires SameExtensions(mul, best, edges)
    ensures Relax(mul, best, edges) == Relax(Times, best, edges)
  {
    if edges != [] {
      var init, e := edges[..|edges| - 1], edges[|edges| - 1];
      assert edges == init + [e];
      SameRelax(mul, best, init);
      assert e.source in best ==> Extend(mul, best[e.source], e) == Extend(Times, best[e.source], e);
      hide Extend, IsBetter;
    }
  }

  lemma EntrySame(mul: Multiplication, offers: seq<Hop>, chosen: seq<Hop>, s: Currency, c: Candidate, e: Hop)
    requires Agrees(mul, offers, s) && IsCollapse(offers, chosen)
    requires IsWalked(Times, chosen, s, e.source, c) && |c.hops| <= ROUNDS && e in chosen
    ensures Extend(mul, c, e) == Extend(Times, c, e)
  {
    WalkExtend(s, c.hops, e.source, e);
    OverOffers(offers, chosen, c.hops);
    assert OfferedWalk(offers, s, c.hops, e.source) && OfferedWalk(offers, s, c.hops + [e], e.target);
    FoldExtend(mul, c.hops, e);
    FoldExtend(Times, c.hops, e);
    hide Times;
    assert Fold(mul, c.hops) == Fold(Times, c.hops) && Fold(mul, c.hops + [e]) == Fold(Times, c.hops + [e]);
  }

  lemma ExtensionsSame(mul: Multiplication, offers: seq<Hop>, chosen: seq<Hop>, s: Currency, n: nat)
    requires Agrees(mul, offers, s) && IsCollapse(offers, chosen) && n <= ROUNDS
    ensures SameExtensions(mul, Rounds(Times, Start(s), chosen, n), chosen)
  {
    hide Agrees, IsCollapse, Rounds, Times, IsWalked, Extend;
    RoundsWalked(Times, chosen, s, n);
    RoundsShort(Times, chosen, s, n);
    var best := Rounds(Times, Start(s), chosen, n);
    forall e | e in chosen && e.source in best ensures Extend(mul, best[e.source], e) == Extend(Times, best[e.source], e) {
      assert IsWalked(Times, chosen, s, e.source, best[e.source]);
      EntrySame(mul, offers, chosen, s, best[e.source], e);
    }
  }

  lemma {:induction false} SameRounds(mul: Multiplication, offers: seq<Hop>, chosen: seq<Hop>, s: Currency, n: nat)
    requires Agrees(mul, offers, s) && IsCollapse(offers, chosen) && n <= ROUNDS + 1
    ensures Rounds(mul, Start(s), chosen, n) == Rounds(Times, Start(s), chosen, n)
  {
    hide Agrees, IsCollapse, Relax, Times, SameExtensions, Start;
    if n > 0 {
      SameRounds(mul, offers, chosen, s, n - 1);
      ExtensionsSame(mul, offers, chosen, s, n - 1);
      SameRelax(mul, Rounds(Times, Start(s), chosen, n - 1), chosen);
    }
  }

  /** Where the two agree on the walks of at most five hops, the result is the one of the exact products. */
  lemma AgreementCarriesOver(mul: Multiplication, edges: seq<Edge>, version: int, s: Currency, r: Result<Routes>)
    requires AllValid(edges) && Agrees(mul, HopsOf(edges), s) && Computes(mul, edges, version, s, r)
    ensures Computes(Times, edges, version, s, r)
  {
    var offers := HopsOf(edges);
    var chosen :| IsCollapse(offers, chosen) && r == Decide(mul, chosen, version, s);
    SameRounds(mul, offers, chosen, s, ROUNDS);
    SameRounds(mul, offers, chosen, s, ROUNDS + 1);
    assert Relax(mul, Search(mul, chosen, s), chosen) == Relax(Times, Search(Times, chosen, s), chosen);
    hide Relax, Rounds, IsCollapse, Agrees, Times;
    assert r == Decide(Times, chosen, version, s);
  }
}
