/** The published snapshot of routes, and the loop that keeps publishing. */
module RateBooks {
  import opened Options
  import opened Routing
  import opened RateFeed
  import opened RoundedFeed
  import opened Walks
  import opened ContextRoutes

  datatype RateSnapshot = RateSnapshot(version: int, routes: Routes)

  class RateBook {
    const mul: Multiplication
    const edgeFactory: int -> seq<Edge>
    var snapshot: Option<RateSnapshot>

    constructor (mul: Multiplication, edgeFactory: int -> seq<Edge>)
      ensures this.mul == mul && this.edgeFactory == edgeFactory && snapshot == None
    {
      this.mul := mul;
      this.edgeFactory := edgeFactory;
      snapshot := None;
    }

    /** A rejected graph leaves the published snapshot in place. */
    method Publish(edges: seq<Edge>, version: int) returns (r: Result<RateSnapshot>)
      modifies this
      ensures r.Err? ==> snapshot == old(snapshot) && Computes(mul, edges, version, USD, Err(r.error))
      ensures r.Ok? ==> snapshot == Some(r.value) && r.value.version == version
      ensures r.Ok? ==> Computes(mul, edges, version, USD, Ok(r.value.routes))
    {
      var routes := ComputeRoutes(mul, edges, version, USD);
      if routes.Err? {
        return Err(routes.error);
      }
      snapshot := Some(RateSnapshot(version, routes.value));
      r := Ok(snapshot.value);
    }

    method Quote(target: Currency) returns (r: Result<RouteQuote>)
      ensures r.Ok? <==> snapshot.Some? && target in snapshot.value.routes
      ensures r.Ok? ==> r.value == snapshot.value.routes[target]
      ensures r.Err? ==> r.error == RouteNotFound
    {
      if snapshot.None? || target !in snapshot.value.routes {
        return Err(RouteNotFound);
      }
      r := Ok(snapshot.value.routes[target]);
    }

    /** The publishing loop for `passes` intervals. With rates near those of the feed it never stops early, whatever
        was published before it, and each snapshot holds what its version's edges determine: the direct hops. */
    method Run(passes: nat) returns (done: nat)
      requires snapshot.Some? && NearTimes(mul)
      requires forall v :: Approximates(edgeFactory(v), GenerateEdges(v))
      modifies this
      ensures done == passes && snapshot.Some?
      ensures snapshot.value.version == old(snapshot.value.version) + passes
      ensures passes > 0 ==> FromFeed(snapshot.value)
      ensures passes == 0 ==> snapshot == old(snapshot)
    {
      done := 0;
      while done < passes
        invariant 0 <= done <= passes && snapshot.Some?
        invariant snapshot.value.version == old(snapshot.value.version) + done
        invariant done > 0 ==> FromFeed(snapshot.value)
        invariant done == 0 ==> snapshot == old(snapshot)
      {
        var version := snapshot.value.version + 1;
        var published := Publish(edgeFactory(version), version);
        if published.Err? {
          RoundedFeedIsDirect(mul, edgeFactory(version), version, USD, Err(published.error));
          assert false;
          return;
        }
        RoundedFeedIsDirect(mul, edgeFactory(version), version, USD, Ok(published.value.routes));
        done := done + 1;
      }
    }

    /** What the edges of its version determine, one LP_A hop to each currency. */
    ghost predicate FromFeed(published: RateSnapshot) {
      var edges := edgeFactory(published.version);
      && Computes(mul, edges, published.version, USD, Ok(published.routes))
      && AllValid(edges) && DirectHops(mul, edges, published.version, USD, published.routes)
    }
  }

  /** The program's own arithmetic meets what the publishing loop asks for. */
  lemma ContextFeedsTheBook()
    ensures NearTimes(Rounded(InContext))
    ensures forall version :: Approximates(RoundedEdges(InContext, version), GenerateEdges(version))
  {
    hide InContext, RoundedEdges, GenerateEdges, Approximates, NearTimes, Close;
    ContextRounds();
    forall version ensures Approximates(RoundedEdges(InContext, version), GenerateEdges(version)) {
      RoundingIsNear(InContext, version);
    }
    RoundingIsNear(InContext, 0);
  }

  /** Starting with the first version and publishing for `passes` intervals in the program's own arithmetic never fails:
      the snapshot is the feed's, with every route the direct LP_A hop at that hop's own rate. */
  method StartAndRun(passes: nat) returns (book: RateBook)
    ensures fresh(book) && book.mul == Rounded(InContext) && book.snapshot.Some?
    ensures book.snapshot.value.version == 1 + passes && book.FromFeed(book.snapshot.value)
    ensures forall t | t in book.snapshot.value.routes :: var q := book.snapshot.value.routes[t];
      |q.hops| == 1 && q.rate == q.hops[0].rate && q.rate == FeedRateInContext(1 + passes, USD, t, 0.999)
  {
    book := new RateBook(Rounded(InContext), version => RoundedEdges(InContext, version));
    ContextFeedsTheBook();
    hide InContext, RoundedEdges, GenerateEdges, Approximates, NearTimes, Computes, DirectHops, FeedRateInContext;
    var first := book.Publish(book.edgeFactory(1), 1);
    if first.Err? {
      RoundedFeedIsDirect(book.mul, book.edgeFactory(1), 1, USD, Err(first.error));
      assert false;
      return;
    }
    RoundedFeedIsDirect(book.mul, book.edgeFactory(1), 1, USD, Ok(first.value.routes));
    var done := book.Run(passes);
    assert book.FromFeed(book.snapshot.value);
    ContextFeedIsDirect(1 + passes, USD, Ok(book.snapshot.value.routes));
  }
}
