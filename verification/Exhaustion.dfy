/** Runs that use up the provider's positions one settlement at a time, and what they show: a script that is not
    definitive is found out, and the load provider runs dry. */
module Exhaustion {
  import opened Options
  import opened Routing
  import opened Sums
  import opened Decimals
  import opened Fingerprint
  import opened Ledger
  import opened Provider
  import opened Service
  import opened Accounting
  import opened Protocol
  import opened Agreement
  import opened Progress

  // ---------------------------------------------------------------- one more settlement

  /** Nothing stands in the way of a settlement `id` for this request. */
  ghost predicate Fundable(db: Db, id: Id, r: Request, q: RouteQuote) {
    && id !in db.settlements && !KeyTaken(db, r.owner, r.key)
    && Quotable(Units(r.command.amount), q.rate)
    && AvailableOf(r.owner) in db.books.accounts
    && db.books.accounts[AvailableOf(r.owner)].balance >= Units(r.command.amount)
  }

  lemma InsertionApplies(db: Db, opening: OpeningBalances, id: Id, r: Request, q: RouteQuote)
    requires Consistent(db, opening) && Fundable(db, id, r, q)
    ensures InsertReserved(db, id, r, q).Committed?
    ensures InsertReserved(db, id, r, q).db.settlements == db.settlements[id := NewSettlement(r, q)]
  {
    hide Tracked, UniqueKeys, UniqueEvents, WellPosted, OwnersMatch, OmnibusMatches;
    assert OwnerCharted(db.books.accounts, opening, r.owner);
    SoundIsNonNegative(db.books, ReservedOf(r.owner));
    assert !Expected(db.settlements, id, Reserve);
    assert !HasEvent(db.books.journals, id, Reserve);
    hide PostEvent, Quotable;
    EntryOutcome(db.books, opening, id, Reserve, r.owner, Units(r.command.amount));
  }

  function QuoteEnv(q: RouteQuote, gap: nat): Env { Env(Clean, 0, Some(q), gap) }

  function FreshEnv(id: Id, gap: nat): Env { Env(Clean, id, None, gap) }

  lemma QuoteApplies(c: Config, w: World, k: nat, r: Request, q: RouteQuote, gap: nat)
    requires !KeyTaken(w.db, r.owner, r.key) && At(w, k, Create(r), Finding)
    ensures var next := Step(c, w, Advance(k, QuoteEnv(q, gap)));
      At(next, k, Create(r), Inserting(q)) && next.db == w.db && SameProvider(w, next)
  {
  }

  lemma FreshApplies(c: Config, w: World, k: nat, id: Id, r: Request, q: RouteQuote, gap: nat)
    requires At(w, k, Create(r), Inserting(q)) && InsertReserved(w.db, id, r, q).Committed?
    ensures var next := Step(c, w, Advance(k, FreshEnv(id, gap)));
      At(next, k, Create(r), Claiming(id)) && next.db == InsertReserved(w.db, id, r, q).db && SameProvider(w, next)
  {
    hide InsertReserved;
  }

  /** From any consistent state a funded new request reaches its first claim. */
  lemma CreateToClaiming(c: Config, w: World, opening: OpeningBalances, id: Id, r: Request, q: RouteQuote, gap: nat)
    returns (next: World, k: nat)
    requires Consistent(w.db, opening) && Fundable(w.db, id, r, q)
    ensures Reaches(c, w, next, 3, gap) && At(next, k, Create(r), Claiming(id)) && SameProvider(w, next)
    ensures next.db.settlements == w.db.settlements[id := NewSettlement(r, q)] && Consistent(next.db, opening)
    ensures InsertReserved(w.db, id, r, q).Committed? && next.db == InsertReserved(w.db, id, r, q).db
  {
    k := |w.calls|;
    var started := Started(c, w, r);
    var quoted := Step(c, started, Advance(k, QuoteEnv(q, gap)));
    assert !KeyTaken(started.db, r.owner, r.key);
    QuoteApplies(c, started, k, r, q, gap);
    next := Step(c, quoted, Advance(k, FreshEnv(id, gap)));
    InsertionApplies(w.db, opening, id, r, q);
    InsertConsistent(w.db, opening, id, r, q);
    FreshApplies(c, quoted, k, id, r, q, gap);
    assert QuoteEnv(q, gap).skipped == gap && FreshEnv(id, gap).skipped == gap;
    hide *;
    ReachesSelf(c, w, gap);
    ReachesNext(c, w, w, 0, StartCreate(r), gap);
    ReachesNext(c, w, started, 1, Advance(k, QuoteEnv(q, gap)), gap);
    ReachesNext(c, w, quoted, 2, Advance(k, FreshEnv(id, gap)), gap);
  }

  // ---------------------------------------------------------------- using up positions

  /** The smallest request there is, under a key of its own. */
  function UnitRequest(owner: string, n: nat): Request { Request(owner, Zeros(n), Command(Money(1, -8), USDC)) }

  /** At most `n` settlements of one unit each were created, and the provider is at position `n`. */
  ghost predicate Drained(w: World, n: nat) {
    && |w.db.settlements| <= n && w.position == n
    && (forall id | id in w.db.settlements :: UnitRow(w.db.settlements[id], id) && id < n)
    && (forall id | id in w.ops :: id < n)
  }

  predicate UnitRow(s: Settlement, id: Id) { |s.key| == id && s.amount == 1 }

  lemma {:induction false} TotalAtMost(rows: map<Id, Settlement>, weight: (Id, Settlement) -> int)
    requires forall id | id in rows :: weight(id, rows[id]) <= 1
    ensures Total(rows, weight) <= |rows|
    decreases |rows|
  {
    if rows != map[] {
      var id :| id in rows && Total(rows, weight) == weight(id, rows[id]) + Total(rows - {id}, weight);
      assert |rows - {id}| == |rows| - 1 by { assert rows == (rows - {id})[id := rows[id]]; }
      TotalAtMost(rows - {id}, weight);
    }
  }

  /** At the rates of the feed even the smallest request has a positive quoted amount. */
  lemma UnitIsQuotable(rate: real)
    requires 0.9 <= rate <= 100.0
    ensures Quotable(1, rate)
  {
    var exact := 1.0 / 100000000.0 * rate;
    RoundingIsClose(AMBIENT_DIGITS, exact);
    hide RoundPositive;
    assert QuotedAmount(1, rate) == RoundPositive(AMBIENT_DIGITS, exact);
  }

  lemma UnitUnits(owner: string, n: nat)
    ensures Units(UnitRequest(owner, n).command.amount) == 1
  {
  }

  /** While the owner's opening balance lasts, another unit request can be funded. */
  lemma NextFundable(w: World, opening: OpeningBalances, owner: string, q: RouteQuote, n: nat)
    requires Consistent(w.db, opening) && Drained(w, n) && owner in opening.owners && opening.owners[owner] > n
    requires Quotable(1, q.rate)
    ensures Fundable(w.db, n, UnitRequest(owner, n), q)
  {
    hide BooksSound, Chart, Journaled, Tracked, UniqueKeys, OmnibusMatches, Quotable;
    UnitUnits(owner, n);
    assert OwnerBalances(w.db.books.accounts, w.db.settlements, opening, owner);
    TotalAtMost(w.db.settlements, HeldWeight(owner));
    forall id | id in w.db.settlements ensures !HasKey(w.db, id, owner, Zeros(n)) {
      assert UnitRow(w.db.settlements[id], id);
    }
  }

  /** A further unit request, brought to its first claim. */
  lemma NextClaiming(c: Config, w: World, opening: OpeningBalances, owner: string, q: RouteQuote, n: nat)
    returns (next: World, k: nat)
    requires Consistent(w.db, opening) && Drained(w, n) && owner in opening.owners && opening.owners[owner] > n
    requires Quotable(1, q.rate)
    ensures Reaches(c, w, next, 3, 0) && At(next, k, Create(UnitRequest(owner, n)), Claiming(n)) && SameProvider(w, next)
    ensures next.db.settlements == w.db.settlements[n := NewSettlement(UnitRequest(owner, n), q)]
    ensures n !in w.db.settlements && Consistent(next.db, opening)
  {
    hide Consistent, Reaches, At, UnitRequest, Quotable;
    NextFundable(w, opening, owner, q, n);
    next, k := CreateToClaiming(c, w, opening, n, UnitRequest(owner, n), q, 0);
  }

  /** The same settlements, but for their statuses. */
  ghost predicate SameRows(before: Settlements, after: Settlements) {
    after.Keys == before.Keys && forall id | id in before :: after[id] == before[id].(status := after[id].status)
  }

  lemma ClaimedRows(c: Config, db: Db, id: Id, now: int)
    requires id in db.settlements && ClaimReserved(db, id, now, c.leaseTime).Committed?
    ensures SameRows(db.settlements, ClaimReserved(db, id, now, c.leaseTime).db.settlements)
    ensures ClaimReserved(db, id, now, c.leaseTime).db.books == db.books
  {
  }

  /** The settlement is claimed and submitted, and its call stalls. */
  lemma SubmitNext(c: Config, w: World, opening: OpeningBalances, k: nat, kind: Kind, id: Id) returns (next: World)
    requires Consistent(w.db, opening) && At(w, k, kind, Claiming(id))
    requires id in w.db.settlements && w.db.settlements[id].status == RESERVED && id !in w.ops
    requires OutcomeForPosition(c.mode, w.position).Some?
    ensures Reaches(c, w, next, 2, 0) && Consistent(next.db, opening)
    ensures next.ops.Keys == w.ops.Keys + {id} && next.position == w.position + 1
    ensures SameRows(w.db.settlements, next.db.settlements) && next.db.books == w.db.books
  {
    hide Consistent, Reaches, Step, OutcomeForPosition, ClaimReserved, Finalizable, At;
    var claimed := MoveClaiming(c, w, opening, k, kind, id, 0);
    assert claimed.db == Changed(c, w.db, w.clock, FirstClaim(id)) by { ClaimingChange(c, w, k, kind, id); }
    if ClaimReserved(w.db, id, w.clock, c.leaseTime).Committed? { ClaimedRows(c, w.db, id, w.clock); }
    MoveSubmitting(c, claimed, k, kind, id, 1, 0);
    next := Move(c, claimed, k, 0);
    ReachesSelf(c, w, 0);
    ReachesMove(c, w, w, 0, k, 0);
    ReachesMove(c, w, claimed, 1, k, 0);
  }

  lemma ClaimingChange(c: Config, w: World, k: nat, kind: Kind, id: Id)
    requires At(w, k, kind, Claiming(id))
    ensures Step(c, w, Advance(k, CleanEnv(0))).db == Changed(c, w.db, w.clock, FirstClaim(id))
  {
    hide Changed;
  }

  lemma DrainOne(c: Config, w: World, opening: OpeningBalances, owner: string, q: RouteQuote, n: nat) returns (next: World)
    requires Consistent(w.db, opening) && Drained(w, n) && owner in opening.owners && opening.owners[owner] > n
    requires Quotable(1, q.rate) && OutcomeForPosition(c.mode, n).Some?
    ensures Reaches(c, w, next, 5, 0) && Consistent(next.db, opening) && Drained(next, n + 1)
  {
    hide Consistent, Reaches, At, OutcomeForPosition, Quotable, SameRows, UnitRequest, UnitRow;
    var claiming, k := NextClaiming(c, w, opening, owner, q, n);
    next := SubmitNext(c, claiming, opening, k, Create(UnitRequest(owner, n)), n);
    ReachesTrans(c, w, claiming, next, 3, 2, 0);
    hide *;
    StillDrained(w, next, owner, q, n);
  }

  lemma UnitRows(before: Settlements, next: Settlements, owner: string, q: RouteQuote, n: nat)
    requires n !in before && forall id | id in before :: UnitRow(before[id], id) && id < n
    requires SameRows(before[n := NewSettlement(UnitRequest(owner, n), q)], next)
    ensures next.Keys == before.Keys + {n} && |next| == |before| + 1
    ensures forall id | id in next :: UnitRow(next[id], id) && id < n + 1
  {
    var row := NewSettlement(UnitRequest(owner, n), q);
    UnitUnits(owner, n);
    assert UnitRow(row, n);
    hide NewSettlement, UnitRequest, UnitRow;
    OneMoreRow(before, next, n);
    forall id | id in next ensures UnitRow(next[id], id) && id < n + 1 {
      AnyStatus(if id == n then row else before[id], next[id].status, id);
    }
  }

  lemma OneMoreRow(before: Settlements, next: Settlements, n: nat)
    requires n !in before && next.Keys == before.Keys + {n}
    ensures |next| == |before| + 1
  {
    assert |next| == |next.Keys| && |before| == |before.Keys|;
  }

  lemma AnyStatus(s: Settlement, status: Status, id: Id)
    requires UnitRow(s, id)
    ensures UnitRow(s.(status := status), id)
  {
  }

  lemma StillDrained(w: World, next: World, owner: string, q: RouteQuote, n: nat)
    requires Drained(w, n) && n !in w.db.settlements
    requires next.ops.Keys == w.ops.Keys + {n} && next.position == n + 1
    requires SameRows(w.db.settlements[n := NewSettlement(UnitRequest(owner, n), q)], next.db.settlements)
    ensures Drained(next, n + 1)
  {
    hide SameRows, NewSettlement, UnitRequest, UnitRow;
    UnitRows(w.db.settlements, next.db.settlements, owner, q, n);
    forall id | id in next.ops ensures id < n + 1 { assert id in w.ops.Keys + {n}; }
  }

  /** An owner with `n` units can bring the provider to position `n`. */
  lemma {:induction false} DrainTo(c: Config, w: World, opening: OpeningBalances, owner: string, q: RouteQuote, n: nat)
    returns (next: World)
    requires Initial(w, opening) && owner in opening.owners && opening.owners[owner] >= n && Quotable(1, q.rate)
    requires forall p: nat | p < n :: OutcomeForPosition(c.mode, p).Some?
    ensures Reaches(c, w, next, 5 * n, 0) && Consistent(next.db, opening) && Drained(next, n)
  {
    hide Consistent, Reaches, OutcomeForPosition, Quotable;
    if n == 0 {
      next := w;
      ReachesSelf(c, w, 0);
    } else {
      var before := DrainTo(c, w, opening, owner, q, n - 1);
      next := DrainOne(c, before, opening, owner, q, n - 1);
      ReachesTrans(c, w, before, next, 5 * (n - 1), 5, 0);
    }
  }

  /** A settlement about to be claimed, with the provider at any position its owner can pay for. */
  lemma ClaimingAtPosition(c: Config, w: World, opening: OpeningBalances, owner: string, q: RouteQuote, n: nat)
    returns (next: World, k: nat)
    requires Initial(w, opening) && owner in opening.owners && opening.owners[owner] > n && Quotable(1, q.rate)
    requires forall p: nat | p < n :: OutcomeForPosition(c.mode, p).Some?
    ensures Reaches(c, w, next, 5 * n + 3, 0) && At(next, k, Create(UnitRequest(owner, n)), Claiming(n))
    ensures next.position == n && n !in next.ops && Consistent(next.db, opening)
    ensures n in next.db.settlements && next.db.settlements[n].status == RESERVED
  {
    hide Initial, Consistent, Reaches, At, OutcomeForPosition, Quotable, UnitRequest;
    var drained := DrainTo(c, w, opening, owner, q, n);
    next, k := NextClaiming(c, drained, opening, owner, q, n);
    ReachesTrans(c, w, drained, next, 5 * n, 3, 0);
  }

  // ---------------------------------------------------------------- the load provider runs dry

  /** After a thousand payouts the load provider refuses the next, and the settlement behind it never ends. */
  lemma LoadProviderRunsDry(c: Config, w: World, opening: OpeningBalances, owner: string, q: RouteQuote)
    returns (actions: seq<Action>)
    requires c.mode.loadMode && Initial(w, opening) && Quotable(1, q.rate)
    requires owner in opening.owners && opening.owners[owner] > LOAD_LIMIT
    ensures var dry := Run(c, w, actions);
      && LOAD_LIMIT in dry.db.settlements && dry.db.settlements[LOAD_LIMIT].status == RESERVED
      && forall more: seq<Action> :: !Ended(Run(c, dry, more), LOAD_LIMIT)
  {
    forall p: nat | p < LOAD_LIMIT ensures OutcomeForPosition(c.mode, p).Some? { }
    hide Run, Initial, Ended, Quotable, OutcomeForPosition, Reaches;
    var dry, k := ClaimingAtPosition(c, w, opening, owner, q, LOAD_LIMIT);
    actions := ActionsOf(c, w, dry, 5 * LOAD_LIMIT + 3, 0);
    forall more: seq<Action> ensures !Ended(Run(c, dry, more), LOAD_LIMIT) {
      ExhaustedNeverEnds(c, w, opening, actions, more, LOAD_LIMIT);
    }
  }

  // ---------------------------------------------------------------- agreement needs a definitive provider

  lemma UnfaithfulDisagrees(ops: Operations, m: Mode, id: Id, position: nat)
    requires id !in ops && OutcomeForPosition(m, position).Some? && !Faithful(OutcomeForPosition(m, position).value)
    ensures var after := Stored(ops, m, id, position); !StatusAgrees(after, id, StatusFor(Reply(after, id)))
  {
  }

  /** If the outcome at some position submits what its authority does not say, and there is money for the payouts up to
      it, a run of the provider's positions in order shows it. */
  lemma UnfaithfulShows(c: Config, w: World, opening: OpeningBalances, owner: string, q: RouteQuote, position: nat)
    returns (end: World)
    requires Initial(w, opening) && owner in opening.owners && opening.owners[owner] > position && Quotable(1, q.rate)
    requires forall p: nat | p <= position :: OutcomeForPosition(c.mode, p).Some?
    requires !Faithful(OutcomeForPosition(c.mode, position).value)
    ensures Reaches(c, w, end, 5 * position + 6, 0) && !RowsAgree(end.ops, end.db.settlements)
  {
    hide Initial, Consistent, Reaches, At, Stored, Reply, StatusAgrees, Faithful, OutcomeForPosition, StatusFor, Quotable;
    var claiming, k := ClaimingAtPosition(c, w, opening, owner, q, position);
    end := PayoutFromClaiming(c, claiming, opening, k, Create(UnitRequest(owner, position)), position, 0);
    UnfaithfulDisagrees(claiming.ops, c.mode, position, position);
    assert !StatusAgrees(end.ops, position, end.db.settlements[position].status);
    ReachesTrans(c, w, claiming, end, 5 * position + 3, 3, 0);
  }

  /** With money for one round of the script, ledger and provider agree in every run if and only if the provider's
      definitive submissions equal its authority. */
  lemma AgreementIffDefinitive(c: Config, w: World, opening: OpeningBalances, owner: string, q: RouteQuote)
    requires Initial(w, opening) && owner in opening.owners && Quotable(1, q.rate)
    requires Scripted(c.mode) ==> opening.owners[owner] >= |c.mode.outcomes.value|
    ensures Definitive(c.mode) <==>
      forall actions: seq<Action> :: RowsAgree(Run(c, w, actions).ops, Run(c, w, actions).db.settlements)
  {
    hide Run, Consistent, RowsAgree, Reaches, Initial, Quotable, OutcomeForPosition, Faithful;
    if Definitive(c.mode) {
      forall actions: seq<Action>
        ensures RowsAgree(Run(c, w, actions).ops, Run(c, w, actions).db.settlements)
      {
        InitialFacts(w, opening);
        AlwaysAgreed(c, w, actions);
      }
    } else {
      var position := UnfaithfulEntry(c.mode);
      var end := UnfaithfulShows(c, w, opening, owner, q, position);
      var actions := ActionsOf(c, w, end, 5 * position + 6, 0);
    }
  }

  /** Only a script can be unfaithful, and then within its first round. */
  lemma UnfaithfulEntry(m: Mode) returns (position: nat)
    requires !Definitive(m)
    ensures Scripted(m) && position < |m.outcomes.value|
    ensures forall p: nat :: OutcomeForPosition(m, p).Some?
    ensures !Faithful(OutcomeForPosition(m, position).value)
  {
    DefinitiveIff(m);
    position :| position < |m.outcomes.value| && m.outcomes.value[position] !in {Paid, Unpaid, Unknown};
    ScriptPosition(m, position);
  }
}
