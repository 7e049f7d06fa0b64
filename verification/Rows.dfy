/** What a settlement's row says: the request it was made for, the quote it was given, and the amount it was quoted. */
module Rows {
  import opened Options
  import opened Reals
  import opened Decimals
  import opened Routing
  import opened Fingerprint
  import opened Ledger
  import opened Service
  import opened Accounting
  import opened Protocol
  import opened Fencing
  import opened IdempotentCreate

  // ---------------------------------------------------------------- the request

  /** The row's fingerprint is that of its own owner, amount and target. */
  ghost predicate DescribedBy(s: Settlement, a: Amount) {
    Units(a) == s.amount && s.fingerprint == RequestFingerprint(s.owner, a, s.target)
  }

  /** The quoted amount is the amount at the quote's rate, but for one rounding to 28 digits and one to the eighth decimal. */
  ghost predicate QuotedFairly(s: Settlement) { Fair(Times(s.amount as real, s.quote.rate), s.quoted) }

  ghost predicate Fair(exact: real, quoted: int) {
    && quoted > 0 && exact > 0.0
    && exact - 0.5 - exact / 1_000_000_000_000_000_000_000_000_000.0 <= quoted as real
    && quoted as real <= exact + 0.5 + exact / 1_000_000_000_000_000_000_000_000_000.0
  }

  ghost predicate RowTells(s: Settlement) { (exists a: Amount :: DescribedBy(s, a)) && QuotedFairly(s) }

  ghost predicate RowsTell(db: Db) { forall id | id in db.settlements :: RowTells(db.settlements[id]) }

  lemma TwentySevenDigits()
    ensures Ten(27) == 1_000_000_000_000_000_000_000_000_000.0
  {
    HundredThousand();
    TenProduct(5, 5);
    TenProduct(10, 5);
    TenProduct(15, 5);
    TenProduct(20, 5);
    assert Ten(26) == 10.0 * Ten(25) && Ten(27) == 10.0 * Ten(26);
    hide Ten;
    assert Times(100000.0, 100000.0) == 10000000000.0;
    assert Times(100000.0, Ten(10)) == 100000.0 * Ten(10);
    assert Times(100000.0, Ten(15)) == 100000.0 * Ten(15);
    assert Times(100000.0, Ten(20)) == 100000.0 * Ten(20);
  }

  /** A number rounded to 28 digits and then, a hundred million times larger, to a whole. */
  lemma StoredNear(x: real, exact: real)
    requires x > 0.0 && exact == 100000000.0 * x
    ensures var stored := Stored8(RoundTo(28, x)) as real; var slack := exact / 1_000_000_000_000_000_000_000_000_000.0;
      exact - 0.5 - slack <= stored <= exact + 0.5 + slack
  {
    RoundingError(28, x);
    TwentySevenDigits();
    var u, r := Quantum(28, x), RoundPositive(28, x);
    hide RoundPositive, Quantum, Ten;
    assert Times(Ten(27), u) == 1_000_000_000_000_000_000_000_000_000.0 * u;
    assert RoundTo(28, x) == r;
  }

  lemma Hundredfold(a: real, rate: real)
    ensures 100000000.0 * Times(a / 100000000.0, rate) == Times(a, rate)
  {
    assert 100000000.0 * (a / 100000000.0) == a;
    assert (100000000.0 * (a / 100000000.0)) * rate == 100000000.0 * ((a / 100000000.0) * rate);
  }

  lemma StoredFairly(amount: int, rate: real)
    requires amount > 0 && rate > 0.0 && Stored8(QuotedAmount(amount, rate)) > 0
    ensures Fair(Times(amount as real, rate), Stored8(QuotedAmount(amount, rate)))
  {
    hide Times, Stored8, QuotedAmount;
    TimesPositive(amount as real, rate);
    QuotedNear(amount, rate);
  }

  lemma QuotedNear(amount: int, rate: real)
    requires amount > 0 && rate > 0.0
    ensures var exact := Times(amount as real, rate);
      var stored, slack := Stored8(QuotedAmount(amount, rate)) as real, exact / 1_000_000_000_000_000_000_000_000_000.0;
      exact - 0.5 - slack <= stored <= exact + 0.5 + slack
  {
    var x := Times(amount as real / 100000000.0, rate);
    assert QuotedAmount(amount, rate) == RoundTo(28, x);
    hide RoundTo, Times, Stored8, QuotedAmount;
    TimesPositive(amount as real / 100000000.0, rate);
    Hundredfold(amount as real, rate);
    StoredNear(x, Times(amount as real, rate));
  }

  /** What the columns hold: a rate of sixteen digits before the point and a quoted amount of twenty-four, each of eight
      after it; the quoted amount up to its rounding. */
  lemma ColumnsHold(amount: int, rate: real)
    requires amount > 0 && 0.00000001 <= rate <= 9_999_999_999_999_999.0
    requires 1.0 <= Times(amount as real, rate) <= 99_999_999_999_999_999_999_999_999_000_000.0
    ensures Quotable(amount, rate)
  {
    QuotedNear(amount, rate);
    hide QuotedAmount, Times;
  }

  /** What they do not hold. */
  lemma ColumnsOverflow(amount: int, rate: real)
    requires amount > 0 && rate > 0.0
    requires rate < 0.000000005 || rate >= 10_000_000_000_000_000.0
      || Times(amount as real, rate) < 0.4 || Times(amount as real, rate) >= 100_000_000_000_000_000_000_000_001_000_000.0
    ensures !Quotable(amount, rate)
  {
    QuotedNear(amount, rate);
    TimesPositive(amount as real, rate);
    hide QuotedAmount, Times;
  }

  lemma NewIsQuotedFairly(r: Request, q: RouteQuote)
    requires Quotable(Units(r.command.amount), q.rate)
    ensures QuotedFairly(NewSettlement(r, q))
  {
    hide QuotedAmount, Fair, Times, Units;
    StoredFairly(Units(r.command.amount), q.rate);
  }

  lemma InsertionTells(db: Db, id: Id, r: Request, q: RouteQuote)
    requires RowsTell(db) && InsertReserved(db, id, r, q).Committed?
    ensures RowsTell(InsertReserved(db, id, r, q).db)
  {
    NewIsQuotedFairly(r, q);
    assert DescribedBy(NewSettlement(r, q), r.command.amount);
    hide DescribedBy, QuotedFairly, NewSettlement, Quotable, PostEvent, KeyTaken;
  }

  lemma KeptTells(before: Db, after: Db)
    requires RowsTell(before) && Kept(before, after) && after.settlements.Keys == before.settlements.Keys
    ensures RowsTell(after)
  {
    forall id | id in after.settlements ensures RowTells(after.settlements[id]) {
      assert RowTells(before.settlements[id]) && Progressed(before.settlements[id], after.settlements[id]);
      AnyStatusTells(before.settlements[id], after.settlements[id].status);
    }
  }

  lemma AnyStatusTells(s: Settlement, status: Status)
    requires RowTells(s)
    ensures RowTells(s.(status := status))
  {
    hide RequestFingerprint, Units, Fair;
    var a: Amount :| DescribedBy(s, a);
    assert DescribedBy(s.(status := status), a);
  }

  lemma ChangedTells(c: Config, db: Db, clock: int, change: Change)
    requires RowsTell(db)
    ensures RowsTell(Changed(c, db, clock, change))
  {
    hide Kept, RowsTell;
    ChangedKept(c, db, clock, change);
    if change.Insertion? && InsertReserved(db, change.id, change.request, change.quote).Committed? {
      InsertionTells(db, change.id, change.request, change.quote);
    } else {
      if change.BatchClaim? { ClaimRowsFrame(db, change.rows, clock, c.leaseTime); }
      KeptTells(db, Changed(c, db, clock, change));
    }
  }

  /** In every reachable state each row's fingerprint is that of an amount of the row's value, for the row's owner and
      target, and its quoted amount is that value at its quote's rate. */
  lemma {:induction false} RowsAlwaysTell(c: Config, w: World, opening: OpeningBalances, actions: seq<Action>)
    requires Initial(w, opening)
    ensures RowsTell(Run(c, w, actions).db)
  {
    hide RowTells, Changed, ChangeOf, CallsAfter, Grants, Consistent;
    if actions != [] {
      var before, a := Run(c, w, actions[..|actions| - 1]), actions[|actions| - 1];
      RowsAlwaysTell(c, w, opening, actions[..|actions| - 1]);
      hide RowsTell;
      ChangedTells(c, before.db, before.clock, ChangeOf(before, a));
    }
  }

  /** Every `create` that returned got a settlement for exactly what it asked: owner, key, value and target. */
  lemma CreateGetsWhatItAsked(c: Config, w: World, opening: OpeningBalances, actions: seq<Action>, k: nat)
    requires Initial(w, opening)
    requires var end := Run(c, w, actions); k < |end.calls| && end.calls[k].kind.Create? && end.calls[k].pc.Returned?
    ensures var end := Run(c, w, actions);
      var r, id := end.calls[k].kind.request, end.calls[k].pc.id;
      && id in end.db.settlements
      && end.db.settlements[id].owner == r.owner && end.db.settlements[id].key == r.key
      && end.db.settlements[id].amount == Units(r.command.amount) && end.db.settlements[id].target == r.command.target
  {
    hide Initial, Run, Consistent, RowTells, RequestFingerprint, Units;
    CreateIsLinearizable(c, w, opening, actions);
    RowsAlwaysTell(c, w, opening, actions);
    var end := Run(c, w, actions);
    var r, id := end.calls[k].kind.request, end.calls[k].pc.id;
    assert Belongs(end.db, id, r);
    assert RowTells(end.db.settlements[id]);
    RowAsRequested(end.db.settlements[id], r);
  }

  lemma RowAsRequested(s: Settlement, r: Request)
    requires RowTells(s) && s.owner == r.owner && s.fingerprint == FingerprintOf(r)
    ensures s.amount == Units(r.command.amount) && s.target == r.command.target
  {
    hide RequestFingerprint, Units, QuotedFairly;
    var a: Amount :| DescribedBy(s, a);
    FingerprintIdentifies(s.owner, a, s.target, r.owner, r.command.amount, r.command.target);
  }

  // ---------------------------------------------------------------- the quote

  /** In step `m` call `k` looked for a settlement, found none, and was given the published quote `q`. */
  ghost predicate Offered(c: Config, w: World, actions: seq<Action>, k: nat, q: RouteQuote, m: nat) {
    && m < |actions| && actions[m].Advance? && actions[m].call == k && actions[m].env.quote == Some(q)
    && k < |Run(c, w, actions[..m]).calls| && Run(c, w, actions[..m]).calls[k].pc.Finding?
  }

  /** In step `n` call `k` inserted the settlement `id`. */
  ghost predicate InsertedBy(c: Config, w: World, actions: seq<Action>, k: nat, id: Id, n: nat) {
    && n < |actions| && actions[n].Advance? && actions[n].call == k && actions[n].env.freshId == id
    && k < |Run(c, w, actions[..n]).calls| && Run(c, w, actions[..n]).calls[k].pc.Inserting?
    && id !in Run(c, w, actions[..n]).db.settlements
  }

  /** The quote was offered to the call that then inserted the settlement. */
  ghost predicate QuotedTo(c: Config, w: World, actions: seq<Action>, id: Id, q: RouteQuote) {
    exists k: nat, m: nat, n: nat :: m < n && Offered(c, w, actions, k, q, m) && InsertedBy(c, w, actions, k, id, n)
  }

  /** A call about to insert carries a quote it was offered. */
  ghost predicate CarriesOffer(c: Config, w: World, actions: seq<Action>, k: nat, pc: Pc) {
    pc.Inserting? ==> exists m: nat :: Offered(c, w, actions, k, pc.quote, m)
  }

  lemma OfferedLater(c: Config, w: World, init: seq<Action>, a: Action, k: nat, q: RouteQuote, m: nat)
    requires Offered(c, w, init, k, q, m)
    ensures Offered(c, w, init + [a], k, q, m)
  {
    hide Run;
    assert (init + [a])[..m] == init[..m];
  }

  lemma QuotedLater(c: Config, w: World, init: seq<Action>, a: Action, id: Id, q: RouteQuote)
    requires QuotedTo(c, w, init, id, q)
    ensures QuotedTo(c, w, init + [a], id, q)
  {
    hide Run;
    var k: nat, m: nat, n: nat :| m < n && Offered(c, w, init, k, q, m) && InsertedBy(c, w, init, k, id, n);
    OfferedLater(c, w, init, a, k, q, m);
    assert (init + [a])[..n] == init[..n];
    assert InsertedBy(c, w, init + [a], k, id, n);
  }

  /** A call comes to its insertion only from a lookup that found nothing, with the quote of that moment. */
  lemma ComesToInsert(c: Config, w: World, a: Action, k: nat)
    requires k < |Step(c, w, a).calls| && Step(c, w, a).calls[k].pc.Inserting?
    ensures k < |w.calls|
    ensures Step(c, w, a).calls[k].pc == w.calls[k].pc
      || (a.Advance? && a.call == k && w.calls[k].pc.Finding? && a.env.quote == Some(Step(c, w, a).calls[k].pc.quote))
  {
    hide Changed, ChangeOf, InsertReserved, ClaimReserved, ClaimForReconciliation, FinalizeAttempt, FindRow;
  }

  lemma StepCarriesOffer(c: Config, w: World, init: seq<Action>, a: Action, k: nat)
    requires forall j | 0 <= j < |Run(c, w, init).calls| :: CarriesOffer(c, w, init, j, Run(c, w, init).calls[j].pc)
    requires k < |Step(c, Run(c, w, init), a).calls|
    ensures CarriesOffer(c, w, init + [a], k, Step(c, Run(c, w, init), a).calls[k].pc)
  {
    hide Run, Step;
    var before := Run(c, w, init);
    var pc := Step(c, before, a).calls[k].pc;
    if pc.Inserting? {
      ComesToInsert(c, before, a, k);
      if pc == before.calls[k].pc {
        assert CarriesOffer(c, w, init, k, before.calls[k].pc);
        var m: nat :| Offered(c, w, init, k, pc.quote, m);
        OfferedLater(c, w, init, a, k, pc.quote, m);
      } else {
        assert (init + [a])[..|init|] == init;
        assert Offered(c, w, init + [a], k, pc.quote, |init|);
      }
    }
  }

  /** A settlement that appears in a step was inserted by that step's call, with the quote the call carried. */
  lemma AppearsByInsertion(c: Config, w: World, a: Action, id: Id)
    requires id in Step(c, w, a).db.settlements && id !in w.db.settlements
    ensures a.Advance? && a.call < |w.calls| && w.calls[a.call].pc.Inserting? && a.env.freshId == id
    ensures Step(c, w, a).db.settlements[id].quote == w.calls[a.call].pc.quote
  {
    if a.Batch? { ClaimRowsFrame(w.db, a.rows, w.clock, c.leaseTime); }
    hide PostEvent, Quotable, KeyTaken, IsBatch, ClaimRows;
  }

  lemma RowQuoted(c: Config, w: World, init: seq<Action>, a: Action, id: Id)
    requires forall j | 0 <= j < |Run(c, w, init).calls| :: CarriesOffer(c, w, init, j, Run(c, w, init).calls[j].pc)
    requires forall i | i in Run(c, w, init).db.settlements :: QuotedTo(c, w, init, i, Run(c, w, init).db.settlements[i].quote)
    requires id in Step(c, Run(c, w, init), a).db.settlements
    ensures QuotedTo(c, w, init + [a], id, Step(c, Run(c, w, init), a).db.settlements[id].quote)
  {
    hide Run, Step, QuotedTo;
    var before := Run(c, w, init);
    var q := Step(c, before, a).db.settlements[id].quote;
    if id in before.db.settlements {
      StepKeeps(c, before, a, id);
      QuotedLater(c, w, init, a, id, q);
    } else {
      AppearsByInsertion(c, before, a, id);
      var k := a.call;
      assert CarriesOffer(c, w, init, k, before.calls[k].pc);
      var m: nat :| Offered(c, w, init, k, q, m);
      OfferedLater(c, w, init, a, k, q, m);
      assert (init + [a])[..|init|] == init;
      assert InsertedBy(c, w, init + [a], k, id, |init|);
      QuotedByThen(c, w, init + [a], k, m, |init|, id, q);
    }
  }

  lemma QuotedByThen(c: Config, w: World, actions: seq<Action>, k: nat, m: nat, n: nat, id: Id, q: RouteQuote)
    requires m < n && Offered(c, w, actions, k, q, m) && InsertedBy(c, w, actions, k, id, n)
    ensures QuotedTo(c, w, actions, id, q)
  {
  }

  lemma StepKeeps(c: Config, w: World, a: Action, id: Id)
    requires id in w.db.settlements
    ensures id in Step(c, w, a).db.settlements && Step(c, w, a).db.settlements[id].quote == w.db.settlements[id].quote
  {
    ChangedKept(c, w.db, w.clock, ChangeOf(w, a));
    hide Changed, ChangeOf, Grants, CallsAfter;
  }

  /** In every reachable state the quote in a row is one that was published, earlier in the run, to the call that
      inserted the row. */
  lemma {:induction false} QuotesWerePublished(c: Config, w: World, opening: OpeningBalances, actions: seq<Action>)
    requires Initial(w, opening)
    ensures forall k | 0 <= k < |Run(c, w, actions).calls| :: CarriesOffer(c, w, actions, k, Run(c, w, actions).calls[k].pc)
    ensures forall id | id in Run(c, w, actions).db.settlements ::
      QuotedTo(c, w, actions, id, Run(c, w, actions).db.settlements[id].quote)
  {
    hide Step, QuotedTo, CarriesOffer, Consistent;
    if actions != [] {
      var init, a := actions[..|actions| - 1], actions[|actions| - 1];
      assert init + [a] == actions;
      QuotesWerePublished(c, w, opening, init);
      forall k | 0 <= k < |Run(c, w, actions).calls| ensures CarriesOffer(c, w, actions, k, Run(c, w, actions).calls[k].pc) {
        StepCarriesOffer(c, w, init, a, k);
      }
      forall id | id in Run(c, w, actions).db.settlements
        ensures QuotedTo(c, w, actions, id, Run(c, w, actions).db.settlements[id].quote)
      {
        RowQuoted(c, w, init, a, id);
      }
    }
  }
}
