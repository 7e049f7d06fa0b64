/** What a claim leaves behind: a lease of the full time from the claim's instant, which keeps everybody else out. */
module Claims {
  import opened Options
  import opened Ledger
  import opened Provider
  import opened Service
  import opened Accounting
  import opened Protocol
  import opened Fencing
  import opened IdempotentCreate
  import opened BatchFairness

  // ---------------------------------------------------------------- a claim leaves a full lease

  lemma {:induction false} RowsLeased(db: Db, rows: seq<Id>, now: int, leaseTime: int, id: Id)
    requires id in rows && id in db.attempts
    ensures var after := ClaimRows(db, rows, now, leaseTime);
      id in after.attempts && after.attempts[id].state == Claimed && after.attempts[id].lease == now + leaseTime
  {
    var init, last := rows[..|rows| - 1], rows[|rows| - 1];
    assert rows == init + [last];
    ClaimRowsFrame(db, init, now, leaseTime);
    if last != id {
      RowsLeased(db, init, now, leaseTime, id);
    }
  }

  ghost predicate ByCreate(w: World, a: Action) { a.Advance? && a.call < |w.calls| && w.calls[a.call].kind.Create? }

  /** The row of a token just handed out at `clock`: a first claim by `create` is SUBMITTING, any other CLAIMED. */
  ghost predicate Leased(db: Db, e: Issue, clock: int, leaseTime: int, first: bool) {
    && e.id in db.settlements && e.id in db.attempts && db.attempts[e.id].token == e.token
    && db.attempts[e.id].lease == clock + leaseTime
    && db.attempts[e.id].state == (if first then Submitting else Claimed)
    && (db.settlements[e.id].status == PAYOUT_IN_PROGRESS || (!first && db.settlements[e.id].status == PENDING_RECONCILIATION))
  }

  lemma BatchLeases(c: Config, w: World, a: Action, i: nat)
    requires a.Batch? && IsBatch(w.db, w.clock, a.limit, a.locked, a.rows) && i < |a.rows|
    ensures Leased(Step(c, w, a).db, Grants(c, w.db, w.clock, BatchClaim(a.rows), |w.calls|)[i], w.clock, c.leaseTime, false)
  {
    assert Due(w.db, a.rows[i], w.clock);
    ClaimRowsFrame(w.db, a.rows, w.clock, c.leaseTime);
    RowsLeased(w.db, a.rows, w.clock, c.leaseTime, a.rows[i]);
    hide IsBatch, ClaimRows;
  }

  lemma CallLeases(c: Config, w: World, a: Action)
    requires a.Advance? && a.call < |w.calls| && CallOk(w.db, w.calls[a.call])
    ensures var grants := Grants(c, w.db, w.clock, ChangeOf(w, a), a.call);
      forall i | 0 <= i < |grants| :: Leased(Step(c, w, a).db, grants[i], w.clock, c.leaseTime, ByCreate(w, a))
  {
  }

  /** Whoever gets a token at clock `t` leaves the row leased until exactly `t` plus the lease time. */
  lemma TokenComesWithLease(c: Config, w: World, a: Action, i: nat)
    requires CallsOk(w) && |w.issued| <= i < |Step(c, w, a).issued|
    ensures Leased(Step(c, w, a).db, Step(c, w, a).issued[i], w.clock, c.leaseTime, ByCreate(w, a))
  {
    var grants := Grants(c, w.db, w.clock, ChangeOf(w, a), CallOf(w, a));
    assert Step(c, w, a).issued == w.issued + grants;
    assert Step(c, w, a).issued[i] == grants[i - |w.issued|];
    hide Changed, CallOk, IsBatch, Grants, Leased, Attempted;
    if a.Batch? && IsBatch(w.db, w.clock, a.limit, a.locked, a.rows) {
      GrantsPerRow(c, w.db, w.clock, a.rows, |w.calls|);
      BatchLeases(c, w, a, i - |w.issued|);
    } else if a.Advance? && a.call < |w.calls| {
      assert CallOk(w.db, w.calls[a.call]);
      CallLeases(c, w, a);
    } else {
      NoChangeGrants(c, w.db, w.clock, CallOf(w, a));
    }
  }

  lemma GrantsPerRow(c: Config, db: Db, clock: int, rows: seq<Id>, call: nat)
    ensures |Grants(c, db, clock, BatchClaim(rows), call)| == |rows|
  {
  }

  // ---------------------------------------------------------------- while it runs, nobody else gets a token

  /** The later steps hand out no token for `id`. */
  ghost predicate NoneIssued(w: World, later: World, id: Id) {
    |w.issued| <= |later.issued| && forall i | |w.issued| <= i < |later.issued| :: later.issued[i].id != id
  }

  /** No result arrives for `id` under the token. */
  ghost predicate NoResult(c: Config, w: World, more: seq<Action>, id: Id, token: int) {
    forall n | 0 <= n < |more| :: !ResultOf(ChangeOf(Run(c, w, more[..n]), more[n]), id, token)
  }

  predicate ResultOf(change: Change, id: Id, token: int) {
    change.Finalization? && change.id == id && change.token == token
  }

  /** Nobody claims the row by hand. */
  ghost predicate NoHandClaim(c: Config, w: World, more: seq<Action>, id: Id) {
    forall n | 0 <= n < |more| :: ChangeOf(Run(c, w, more[..n]), more[n]) != LaterClaim(id)
  }

  /** A row under a lease that a change leaves alone: claimed, or first claimed and not claimed by hand. */
  ghost predicate Spared(db: Db, clock: int, change: Change, id: Id) {
    && id in db.attempts && db.attempts[id].lease > clock && !ResultOf(change, id, db.attempts[id].token)
    && (db.attempts[id].state == Claimed || change != LaterClaim(id))
  }

  lemma ChangeSpares(c: Config, db: Db, clock: int, change: Change, id: Id, call: nat)
    requires Tracked(db.settlements, db.attempts) && Spared(db, clock, change, id)
    requires change.BatchClaim? ==> forall i | 0 <= i < |change.rows| :: Due(db, change.rows[i], clock)
    ensures Untouched(db, Changed(c, db, clock, change), id)
    ensures !Granted(Grants(c, db, clock, change, call), id)
  {
    if change.BatchClaim? {
      forall i | 0 <= i < |change.rows| ensures change.rows[i] != id { assert Due(db, change.rows[i], clock); }
      RowsUntouched(db, change.rows, clock, c.leaseTime, id);
      hide ClaimRows, Due;
    } else {
      hide PostEvent, Quotable, KeyTaken, NewSettlement;
    }
  }

  lemma StepSpares(c: Config, w: World, a: Action, id: Id)
    requires Tracked(w.db.settlements, w.db.attempts) && Spared(w.db, w.clock, ChangeOf(w, a), id)
    ensures Untouched(w.db, Step(c, w, a).db, id) && NoneIssued(w, Step(c, w, a), id)
  {
    BatchInPayout(w, a);
    hide ChangeOf, Changed, Tracked, Spared, Due;
    ChangeSpares(c, w.db, w.clock, ChangeOf(w, a), id, CallOf(w, a));
    NotGranted(w.issued, Grants(c, w.db, w.clock, ChangeOf(w, a), CallOf(w, a)), id);
  }

  lemma NotGranted(issued: seq<Issue>, grants: seq<Issue>, id: Id)
    requires !Granted(grants, id)
    ensures forall i | |issued| <= i < |issued + grants| :: (issued + grants)[i].id != id
  {
    forall i | |issued| <= i < |issued + grants| ensures (issued + grants)[i].id != id {
      assert (issued + grants)[i] == grants[i - |issued|];
    }
  }

  lemma IssuedGrows(c: Config, w: World, a: Action)
    ensures |w.issued| <= |Step(c, w, a).issued|
    ensures forall i | 0 <= i < |w.issued| :: Step(c, w, a).issued[i] == w.issued[i]
  {
    hide Changed, ChangeOf, Grants, CallsAfter;
  }

  lemma ClockOnlyRises(c: Config, w: World, a: Action)
    ensures Step(c, w, a).clock >= w.clock
  {
  }

  lemma Prefixes(c: Config, w: World, more: seq<Action>, id: Id, token: int)
    requires more != [] && NoResult(c, w, more, id, token)
    ensures NoResult(c, w, more[..|more| - 1], id, token)
    ensures NoHandClaim(c, w, more, id) ==> NoHandClaim(c, w, more[..|more| - 1], id)
  {
    hide Run, ChangeOf, ResultOf;
    var init := more[..|more| - 1];
    assert forall n | 0 <= n < |init| :: init[..n] == more[..n] && init[n] == more[n];
  }

  /** A leased row stays as it is and no token is issued for it before the lease has run out, unless its own result
      arrives or, after a first claim, somebody claims it by hand. */
  lemma {:induction false} LeaseKeepsOut(c: Config, w: World, opening: OpeningBalances, more: seq<Action>, id: Id)
    requires Consistent(w.db, opening) && id in w.db.attempts && Run(c, w, more).clock < w.db.attempts[id].lease
    requires NoResult(c, w, more, id, w.db.attempts[id].token)
    requires w.db.attempts[id].state == Claimed || NoHandClaim(c, w, more, id)
    ensures Untouched(w.db, Run(c, w, more).db, id) && NoneIssued(w, Run(c, w, more), id)
  {
    hide Consistent, Step, ChangeOf, ResultOf;
    if more != [] {
      var init, a := more[..|more| - 1], more[|more| - 1];
      var before := Run(c, w, init);
      Prefixes(c, w, more, id, w.db.attempts[id].token);
      ClockOnlyRises(c, before, a);
      LeaseKeepsOut(c, w, opening, init, id);
      AlwaysConsistent(c, w, opening, init);
      IsTracked(before.db, opening);
      assert !ResultOf(ChangeOf(before, a), id, w.db.attempts[id].token);
      assert NoHandClaim(c, w, more, id) ==> ChangeOf(before, a) != LaterClaim(id);
      assert Run(c, w, more) == Step(c, before, a);
      hide NoResult, NoHandClaim, Run;
      StepSpares(c, before, a, id);
      IssuedGrows(c, before, a);
    }
  }

  lemma IsTracked(db: Db, opening: OpeningBalances)
    requires Consistent(db, opening)
    ensures Tracked(db.settlements, db.attempts)
  {
    hide Balanced, Journaled, UniqueKeys, Tracked;
  }

  // ---------------------------------------------------------------- main results

  /** After a claim by hand or by the background at clock `t`, nobody gets a token for the settlement before `t` plus the
      lease time, unless the claim's own result arrives. */
  lemma ClaimExcludes(c: Config, w: World, opening: OpeningBalances, actions: seq<Action>, a: Action, i: nat, more: seq<Action>)
    requires Initial(w, opening)
    requires var now := Run(c, w, actions); var next := Step(c, now, a);
      && |now.issued| <= i < |next.issued| && !ByCreate(now, a)
      && NoResult(c, next, more, next.issued[i].id, next.issued[i].token)
      && Run(c, next, more).clock < now.clock + c.leaseTime
    ensures var now := Run(c, w, actions); var next := Step(c, now, a);
      && Leased(next.db, next.issued[i], now.clock, c.leaseTime, false)
      && NoneIssued(next, Run(c, next, more), next.issued[i].id)
  {
    hide Initial, Consistent, Step, NoResult, NoHandClaim, NoneIssued, CallsOk, Holders, Recorded, ByCreate;
    StepReached(c, w, opening, actions, a);
    TokenComesWithLease(c, Run(c, w, actions), a, i);
    LeaseKeepsOut(c, Step(c, Run(c, w, actions), a), opening, more, Step(c, Run(c, w, actions), a).issued[i].id);
  }

  /** After the first claim by a `create` at clock `t` no pass of the background picks the row, and nobody else gets a token
      either, before `t` plus the lease time, unless its result arrives or it is claimed by hand. */
  lemma FirstClaimExcludes(c: Config, w: World, opening: OpeningBalances, actions: seq<Action>, a: Action, i: nat, more: seq<Action>)
    requires Initial(w, opening)
    requires var now := Run(c, w, actions); var next := Step(c, now, a);
      && |now.issued| <= i < |next.issued| && ByCreate(now, a)
      && NoResult(c, next, more, next.issued[i].id, next.issued[i].token) && NoHandClaim(c, next, more, next.issued[i].id)
      && Run(c, next, more).clock < now.clock + c.leaseTime
    ensures var now := Run(c, w, actions); var next := Step(c, now, a);
      && Leased(next.db, next.issued[i], now.clock, c.leaseTime, true)
      && NoneIssued(next, Run(c, next, more), next.issued[i].id)
  {
    hide Initial, Consistent, Step, NoResult, NoHandClaim, NoneIssued, CallsOk, Holders, Recorded, ByCreate;
    StepReached(c, w, opening, actions, a);
    TokenComesWithLease(c, Run(c, w, actions), a, i);
    LeaseKeepsOut(c, Step(c, Run(c, w, actions), a), opening, more, Step(c, Run(c, w, actions), a).issued[i].id);
  }

  lemma StepReached(c: Config, w: World, opening: OpeningBalances, actions: seq<Action>, a: Action)
    requires Initial(w, opening)
    ensures CallsOk(Run(c, w, actions)) && Consistent(Step(c, Run(c, w, actions), a).db, opening)
  {
    hide Initial, Consistent, CallsOk, Holders, Recorded, Step;
    InitialDisciplined(w, opening);
    AlwaysDisciplined(c, w, opening, actions);
    var longer := actions + [a];
    assert longer[..|longer| - 1] == actions;
    AlwaysConsistent(c, w, opening, longer);
    assert Run(c, w, longer) == Step(c, Run(c, w, actions), a);
  }

  // ---------------------------------------------------------------- who gets a claim

  /** A claim by hand is refused exactly while somebody else's claim is under its lease; a schedule, where it is respected,
      holds back every row under a lease. A settlement that is not in payout is never claimed. */
  lemma HandClaimGrantedIff(db: Db, opening: OpeningBalances, id: Id, respect: bool, now: int, leaseTime: int)
    requires Consistent(db, opening) && id in db.settlements
    ensures var tx, status := ClaimForReconciliation(db, id, respect, now, leaseTime), db.settlements[id].status;
      && tx.Committed?
      && (tx.value.Some? <==>
        && (status == PAYOUT_IN_PROGRESS || status == PENDING_RECONCILIATION)
        && id in db.attempts && (db.attempts[id].lease <= now || (db.attempts[id].state != Claimed && !respect)))
      && (tx.value.None? ==> tx.db == db)
  {
    IsTracked(db, opening);
    hide Consistent;
  }

  /** A claim by hand takes the next token, or the first where there is no row yet, leases the row for the full time, and
      changes nothing else. */
  lemma HandClaimLeases(db: Db, id: Id, respect: bool, now: int, leaseTime: int)
    requires var tx := ClaimForReconciliation(db, id, respect, now, leaseTime); tx.Committed? && tx.value.Some?
    ensures var tx := ClaimForReconciliation(db, id, respect, now, leaseTime);
      && tx.value == Some(if id in db.attempts then db.attempts[id].token + 1 else 1)
      && tx.db.settlements == db.settlements && tx.db.books == db.books && tx.db.attempts.Keys == db.attempts.Keys + {id}
      && (forall i | i in db.attempts && i != id :: tx.db.attempts[i] == db.attempts[i])
      && var a := tx.db.attempts[id];
        && Some(a.token) == tx.value && a.state == Claimed && a.lease == now + leaseTime
        && a.lastOutcome == if id in db.attempts then db.attempts[id].lastOutcome else None
  {
  }

  /** The query, row by row: with room to spare it returns exactly the rows in payout that nobody has claimed, whose lease
      has run out and that are not locked; and always in the order of lease, then settlement. */
  lemma BatchRows(db: Db, now: int, limit: nat, locked: set<Id>, rows: seq<Id>)
    requires IsBatch(db, now, limit, locked, rows)
    ensures forall id | id in rows :: id in db.settlements && id in db.attempts
    ensures |rows| < limit ==> forall id: Id :: id in rows <==>
      && id in db.settlements && id in db.attempts && id !in locked
      && (db.settlements[id].status == PAYOUT_IN_PROGRESS || db.settlements[id].status == PENDING_RECONCILIATION)
      && (db.attempts[id].state == Submitting || db.attempts[id].state == Reconciling) && db.attempts[id].lease <= now
    ensures forall i, j | 0 <= i < j < |rows| && rows[i] in db.attempts && rows[j] in db.attempts ::
      db.attempts[rows[i]].lease < db.attempts[rows[j]].lease
      || (db.attempts[rows[i]].lease == db.attempts[rows[j]].lease && rows[i] < rows[j])
  {
    forall i | 0 <= i < |rows| ensures rows[i] in db.settlements && rows[i] in db.attempts { assert Due(db, rows[i], now); }
    forall id: Id ensures |rows| < limit && Due(db, id, now) && id !in locked ==> id in rows { }
    forall id | id in rows ensures Due(db, id, now) && id !in locked { }
    forall i, j | 0 <= i < j < |rows| ensures Earlier(db, rows[i], rows[j]) { }
  }

  /** What a finalization under the row's token writes: the outcome it was given, in a word of its own for each; and where
      nothing was concluded, a row that is due for the background at once. */
  lemma OutcomeIsWritten(db: Db, opening: OpeningBalances, id: Id, result: Option<Submission>, now: int)
    requires Consistent(db, opening) && id in db.settlements && id in db.attempts && Open(db.settlements[id].status)
    ensures var tx := FinalizeAttempt(db, id, db.attempts[id].token, result, now);
      && tx.Committed? && id in tx.db.settlements && id in tx.db.attempts
      && tx.db.attempts[id].token == db.attempts[id].token
      && var status, a := tx.db.settlements[id].status, tx.db.attempts[id];
        && ((status == SUCCESS || status == FAILED) ==> a.lease == db.attempts[id].lease)
        && (result == Some(SubmittedPaid) ==> status == SUCCESS && a.state == Completed && a.lastOutcome == Some(ObservedPaid))
        && (result == Some(SubmittedUnpaid) ==> status == FAILED && a.state == Completed && a.lastOutcome == Some(ObservedUnpaid))
        && (result == Some(Ambiguous) ==> Postponed(status, a, now) && a.lastOutcome == Some(ObservedAmbiguous))
        && (result == None ==> Postponed(status, a, now) && a.lastOutcome == Some(ObservedUnknown))
  {
    hide Consistent, PostEvent;
    FinalizeNeverRefused(db, opening, id, db.attempts[id].token, result, now);
  }

  /** Pending, released for reconciliation, and due from this instant on. */
  predicate Postponed(status: Status, a: Attempt, now: int) {
    status == PENDING_RECONCILIATION && a.state == Reconciling && a.lease == now
  }

  /** Only a result changes what is recorded of the last one; a row that is new to the attempts has none yet. */
  lemma OnlyResultsAreRecorded(c: Config, db: Db, clock: int, change: Change, id: Id)
    requires !change.Finalization? && id in Changed(c, db, clock, change).attempts
    ensures Changed(c, db, clock, change).attempts[id].lastOutcome == if id in db.attempts then db.attempts[id].lastOutcome else None
  {
    if change.BatchClaim? { RowsKeepOutcome(db, change.rows, clock, c.leaseTime, id); }
    hide PostEvent, Quotable, KeyTaken, NewSettlement;
  }

  lemma {:induction false} RowsKeepOutcome(db: Db, rows: seq<Id>, now: int, leaseTime: int, id: Id)
    ensures ClaimRows(db, rows, now, leaseTime).attempts.Keys == db.attempts.Keys
    ensures id in db.attempts ==> ClaimRows(db, rows, now, leaseTime).attempts[id].lastOutcome == db.attempts[id].lastOutcome
  {
    if rows != [] { RowsKeepOutcome(db, rows[..|rows| - 1], now, leaseTime, id); }
  }
}
