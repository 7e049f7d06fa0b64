/** The database transactions of the settlement service (app/service.py). Each is one atomic step: it takes
    its row locks first. A failed transaction leaves the tables as they were. */
module Service {
  import opened Options
  import opened Decimals
  import opened Routing
  import opened Fingerprint
  import opened Ledger
  import opened Provider

  datatype Status = RESERVED | PAYOUT_IN_PROGRESS | PENDING_RECONCILIATION | SUCCESS | FAILED

  datatype Settlement = Settlement(
    owner: string, key: string, fingerprint: string,
    amount: int, target: Currency, quote: RouteQuote, quoted: int, status: Status)

  datatype AttemptState = Submitting | Claimed | Reconciling | Completed

  datatype Observed = ObservedPaid | ObservedUnpaid | ObservedAmbiguous | ObservedUnknown

  /** Times are points on one clock. */
  datatype Attempt = Attempt(state: AttemptState, token: int, lease: int, lastOutcome: Option<Observed>)

  datatype Db = Db(books: Books, settlements: map<Id, Settlement>, attempts: map<Id, Attempt>)

  datatype Command = Command(amount: Amount, target: Currency)

  datatype Request = Request(owner: string, key: string, command: Command)

  datatype TxError =
    | IdempotencyViolation
    | ConstraintViolation
    | LedgerRefused(error: LedgerError)
    | SettlementNotFound
    | StaleAttemptToken

  datatype Tx<+T> = Committed(db: Db, value: T) | Aborted(error: TxError)

  function FingerprintOf(r: Request): string {
    RequestFingerprint(r.owner, r.command.amount, r.command.target)
  }

  predicate Open(s: Status) { s == RESERVED || s == PAYOUT_IN_PROGRESS || s == PENDING_RECONCILIATION }

  predicate Terminal(s: Status) { s == SUCCESS || s == FAILED }

  predicate InPayout(s: Status) { s == PAYOUT_IN_PROGRESS || s == PENDING_RECONCILIATION }

  // ---------------------------------------------------------------- what each transaction does

  /** The unique index on (owner, idempotency key). */
  predicate HasKey(db: Db, id: Id, owner: string, key: string) {
    id in db.settlements && db.settlements[id].owner == owner && db.settlements[id].key == key
  }

  predicate KeyTaken(db: Db, owner: string, key: string) {
    exists id | id in db.settlements :: HasKey(db, id, owner, key)
  }

  /** A positive number as a column of eight decimals stores it, in units of the last. */
  function Stored8(x: real): int { (x * 100000000.0 + 0.5).Floor }

  /** The digits of the ambient decimal context, in which the amount is multiplied by the rate. */
  const AMBIENT_DIGITS: nat := 28

  /** One more than the greatest value of the rate's and the quoted amount's columns, in units of the last decimal. */
  const RATE_WIDTH := 1_000_000_000_000_000_000_000_000

  const QUOTE_WIDTH := 100_000_000_000_000_000_000_000_000_000_000

  function QuotedAmount(amount: int, rate: real): real { RoundTo(AMBIENT_DIGITS, amount as real / 100000000.0 * rate) }

  /** The rate and the quoted amount fit their columns, and are positive as stored. */
  predicate Quotable(amount: int, rate: real) {
    0 < Stored8(rate) < RATE_WIDTH && 0 < Stored8(QuotedAmount(amount, rate)) < QUOTE_WIDTH
  }

  function NewSettlement(r: Request, q: RouteQuote): Settlement {
    var amount := Units(r.command.amount);
    Settlement(r.owner, r.key, FingerprintOf(r), amount, r.command.target, q, Stored8(QuotedAmount(amount, q.rate)), RESERVED)
  }

  /** Insert the settlement and reserve its money. */
  function InsertReserved(db: Db, id: Id, r: Request, q: RouteQuote): Tx<()> {
    if !Quotable(Units(r.command.amount), q.rate) || id in db.settlements then Aborted(ConstraintViolation)
    else if KeyTaken(db, r.owner, r.key) then Aborted(IdempotencyViolation)
    else
      match PostEvent(db.books, id, Reserve, r.owner, Units(r.command.amount))
      case Refused(e) => Aborted(LedgerRefused(e))
      case Entered(books) => Committed(db.(books := books, settlements := db.settlements[id := NewSettlement(r, q)]), ())
  }

  function WithStatus(db: Db, id: Id, status: Status): map<Id, Settlement>
    requires id in db.settlements
  {
    db.settlements[id := db.settlements[id].(status := status)]
  }

  /** Move a reserved settlement to payout; the claim carries the first token. */
  function ClaimReserved(db: Db, id: Id, now: int, leaseTime: int): Tx<Option<int>> {
    if id !in db.settlements then Aborted(SettlementNotFound)
    else if db.settlements[id].status != RESERVED then Committed(db, None)
    else if id in db.attempts then Aborted(ConstraintViolation)
    else
      Committed(
        db.(settlements := WithStatus(db, id, PAYOUT_IN_PROGRESS),
            attempts := db.attempts[id := Attempt(Submitting, 1, now + leaseTime, None)]),
        Some(1))
  }

  function Claim(a: Attempt, now: int, leaseTime: int): Attempt {
    a.(state := Claimed, token := a.token + 1, lease := now + leaseTime)
  }

  function ClaimForReconciliation(db: Db, id: Id, respectSchedule: bool, now: int, leaseTime: int): Tx<Option<int>> {
    if id !in db.settlements then Aborted(SettlementNotFound)
    else if !InPayout(db.settlements[id].status) then Committed(db, None)
    else if id !in db.attempts then
      Committed(db.(attempts := db.attempts[id := Attempt(Claimed, 1, now + leaseTime, None)]), Some(1))
    else
      var a := db.attempts[id];
      if a.lease > now && (a.state == Claimed || respectSchedule) then Committed(db, None)
      else Committed(db.(attempts := db.attempts[id := Claim(a, now, leaseTime)]), Some(a.token + 1))
  }

  /** A row the background batch may pick at `now`. */
  predicate Due(db: Db, id: Id, now: int) {
    && id in db.settlements && id in db.attempts
    && InPayout(db.settlements[id].status)
    && db.attempts[id].lease <= now
    && (db.attempts[id].state == Submitting || db.attempts[id].state == Reconciling)
  }

  /** The order of the batch: lease first, then settlement. */
  predicate Earlier(db: Db, a: Id, b: Id) {
    && a in db.attempts && b in db.attempts
    && (db.attempts[a].lease < db.attempts[b].lease || (db.attempts[a].lease == db.attempts[b].lease && a < b))
  }

  /** `rows` is what the query returns: the `limit` earliest due rows that nobody else holds. */
  ghost predicate IsBatch(db: Db, now: int, limit: nat, locked: set<Id>, rows: seq<Id>) {
    && |rows| <= limit
    && (forall i, j | 0 <= i < j < |rows| :: Earlier(db, rows[i], rows[j]))
    && (forall i | 0 <= i < |rows| :: Due(db, rows[i], now) && rows[i] !in locked)
    && (forall id | Due(db, id, now) && id !in locked && id !in rows ::
         |rows| == limit && forall i | 0 <= i < |rows| :: Earlier(db, rows[i], id))
  }

  function ClaimRows(db: Db, rows: seq<Id>, now: int, leaseTime: int): Db {
    if rows == [] then db
    else
      var before := ClaimRows(db, rows[..|rows| - 1], now, leaseTime);
      var id := rows[|rows| - 1];
      if id in before.attempts then before.(attempts := before.attempts[id := Claim(before.attempts[id], now, leaseTime)])
      else before
  }

  /** Claiming rows changes attempts only, and adds none. */
  lemma {:induction false} ClaimRowsFrame(db: Db, rows: seq<Id>, now: int, leaseTime: int)
    ensures var after := ClaimRows(db, rows, now, leaseTime);
      after.settlements == db.settlements && after.books == db.books && after.attempts.Keys == db.attempts.Keys
  {
    if rows != [] {
      ClaimRowsFrame(db, rows[..|rows| - 1], now, leaseTime);
    }
  }

  function ObservedOf(result: Option<Submission>): Observed {
    match result
    case Some(SubmittedPaid) => ObservedPaid
    case Some(SubmittedUnpaid) => ObservedUnpaid
    case Some(Ambiguous) => ObservedAmbiguous
    case None => ObservedUnknown
  }

  function StatusFor(result: Option<Submission>): Status {
    match result
    case Some(SubmittedPaid) => SUCCESS
    case Some(SubmittedUnpaid) => FAILED
    case _ => PENDING_RECONCILIATION
  }

  /** Apply an outcome under the token that obtained it. */
  function FinalizeAttempt(db: Db, id: Id, token: int, result: Option<Submission>, now: int): Tx<Status> {
    if id !in db.settlements || id !in db.attempts then Aborted(SettlementNotFound)
    else if db.attempts[id].token != token then Aborted(StaleAttemptToken)
    else if Terminal(db.settlements[id].status) then Committed(db, db.settlements[id].status)
    else
      var s, a, status := db.settlements[id], db.attempts[id], StatusFor(result);
      if status == PENDING_RECONCILIATION then
        Committed(
          db.(settlements := WithStatus(db, id, status),
              attempts := db.attempts[id := a.(state := Reconciling, lease := now, lastOutcome := Some(ObservedOf(result)))]),
          status)
      else
        match PostEvent(db.books, id, if status == SUCCESS then Consume else Release, s.owner, s.amount)
        case Refused(e) => Aborted(LedgerRefused(e))
        case Entered(books) =>
          Committed(
            db.(books := books,
                settlements := WithStatus(db, id, status),
                attempts := db.attempts[id := a.(state := Completed, lastOutcome := Some(ObservedOf(result)))]),
            status)
  }

  // ---------------------------------------------------------------- the program

  class SettlementTables {
    const ledger: LedgerTables
    const leaseTime: int
    var settlements: map<Id, Settlement>
    var attempts: map<Id, Attempt>

    constructor (ledger: LedgerTables, leaseTime: int)
      ensures this.ledger == ledger && this.leaseTime == leaseTime
      ensures Contents() == Db(ledger.Contents(), map[], map[])
    {
      this.ledger := ledger;
      this.leaseTime := leaseTime;
      settlements := map[];
      attempts := map[];
    }

    function Contents(): Db
      reads this, ledger
    {
      Db(ledger.Contents(), settlements, attempts)
    }

    method FindByKey(owner: string, key: string) returns (found: Option<Id>)
      ensures found.None? <==> !KeyTaken(Contents(), owner, key)
      ensures found.Some? ==> HasKey(Contents(), found.value, owner, key)
    {
      if id :| id in settlements && settlements[id].owner == owner && settlements[id].key == key {
        return Some(id);
      }
      found := None;
    }

    method Insert(id: Id, r: Request, q: RouteQuote) returns (failed: Option<TxError>)
      modifies this, ledger
      ensures failed.None? ==> InsertReserved(old(Contents()), id, r, q) == Committed(Contents(), ())
      ensures failed.Some? ==> InsertReserved(old(Contents()), id, r, q) == Aborted(failed.value)
      ensures failed.Some? ==> Contents() == old(Contents())
    {
      if !Quotable(Units(r.command.amount), q.rate) || id in settlements {
        return Some(ConstraintViolation);
      }
      var taken := FindByKey(r.owner, r.key);
      if taken.Some? {
        return Some(IdempotencyViolation);
      }
      settlements := settlements[id := NewSettlement(r, q)];
      var refused := ledger.ReserveFunds(id, r.owner, Units(r.command.amount));
      if refused.Some? {
        settlements := settlements - {id};
        assert settlements == old(settlements);
        return Some(LedgerRefused(refused.value));
      }
      failed := None;
    }

    method ClaimReservedRow(id: Id, now: int) returns (failed: Option<TxError>, token: Option<int>)
      modifies this
      ensures failed.None? ==> ClaimReserved(old(Contents()), id, now, leaseTime) == Committed(Contents(), token)
      ensures failed.Some? ==> ClaimReserved(old(Contents()), id, now, leaseTime) == Aborted(failed.value)
      ensures failed.Some? ==> Contents() == old(Contents())
    {
      if id !in settlements {
        return Some(SettlementNotFound), None;
      }
      var settlement := settlements[id];
      if settlement.status != RESERVED {
        return None, None;
      }
      if id in attempts {
        return Some(ConstraintViolation), None;
      }
      settlements := settlements[id := settlement.(status := PAYOUT_IN_PROGRESS)];
      attempts := attempts[id := Attempt(Submitting, 1, now + leaseTime, None)];
      return None, Some(1);
    }

    method ClaimForReconciliationRow(id: Id, respectSchedule: bool, now: int)
      returns (failed: Option<TxError>, token: Option<int>)
      modifies this
      ensures failed.None? ==>
        ClaimForReconciliation(old(Contents()), id, respectSchedule, now, leaseTime) == Committed(Contents(), token)
      ensures failed.Some? ==>
        ClaimForReconciliation(old(Contents()), id, respectSchedule, now, leaseTime) == Aborted(failed.value)
      ensures failed.Some? ==> Contents() == old(Contents())
    {
      if id !in settlements {
        return Some(SettlementNotFound), None;
      }
      if !InPayout(settlements[id].status) {
        return None, None;
      }
      if id !in attempts {
        attempts := attempts[id := Attempt(Reconciling, 1, now, None)];
      } else {
        var attempt := attempts[id];
        if attempt.state == Claimed && attempt.lease > now {
          return None, None;
        }
        if respectSchedule && attempt.lease > now {
          return None, None;
        }
        attempts := attempts[id := attempt.(token := attempt.token + 1)];
      }
      token := Some(attempts[id].token);
      attempts := attempts[id := attempts[id].(state := Claimed)];
      attempts := attempts[id := attempts[id].(lease := now + leaseTime)];
      failed := None;
    }

    /** The earliest of some rows with attempts. */
    method Earliest(rows: set<Id>) returns (first: Id)
      requires rows != {} && rows <= attempts.Keys
      ensures first in rows && forall id | id in rows && id != first :: Earlier(Contents(), first, id)
    {
      first :| first in rows;
      var rest := rows - {first};
      while rest != {}
        invariant first in rows && rest <= rows && first !in rest
        invariant forall id | id in rows && id !in rest && id != first :: Earlier(Contents(), first, id)
        decreases rest
      {
        var id :| id in rest;
        if attempts[id].lease < attempts[first].lease || (attempts[id].lease == attempts[first].lease && id < first) {
          first := id;
        }
        rest := rest - {id};
      }
    }

    /** The query of the batch: by lease and settlement, limited, skipping locked rows. */
    method SelectDue(now: int, limit: nat, locked: set<Id>) returns (rows: seq<Id>)
      ensures IsBatch(Contents(), now, limit, locked, rows)
    {
      var due := set id | id in settlements && Due(Contents(), id, now) && id !in locked;
      var left := due;
      rows := [];
      while |rows| < limit && left != {}
        invariant left <= due && |rows| <= limit
        invariant forall id :: id in due <==> id in rows || id in left
        invariant forall i | 0 <= i < |rows| :: rows[i] in due && rows[i] !in left
        invariant forall i, j | 0 <= i < j < |rows| :: Earlier(Contents(), rows[i], rows[j])
        invariant forall i, id | 0 <= i < |rows| && id in left :: Earlier(Contents(), rows[i], id)
        decreases left
      {
        var first := Earliest(left);
        rows := rows + [first];
        left := left - {first};
      }
    }

    method ClaimDueBatch(now: int, limit: nat, locked: set<Id>) returns (claims: seq<(Id, int)>, ghost rows: seq<Id>)
      modifies this
      ensures IsBatch(old(Contents()), now, limit, locked, rows)
      ensures Contents() == ClaimRows(old(Contents()), rows, now, leaseTime)
      ensures |claims| == |rows| && forall i | 0 <= i < |rows| ::
        claims[i].0 == rows[i] && rows[i] in attempts && claims[i].1 == attempts[rows[i]].token
    {
      var selected := SelectDue(now, limit, locked);
      rows := selected;
      claims := [];
      ghost var before := Contents();
      assert forall i, j | 0 <= i < j < |selected| :: selected[i] != selected[j];
      for i := 0 to |selected|
        invariant settlements == before.settlements && ledger.Contents() == before.books
        invariant attempts.Keys == before.attempts.Keys
        invariant Contents() == ClaimRows(before, selected[..i], now, leaseTime)
        invariant |claims| == i && forall k | 0 <= k < i ::
          claims[k].0 == selected[k] && selected[k] in attempts && claims[k].1 == attempts[selected[k]].token
      {
        assert selected[..i + 1][..i] == selected[..i];
        var id := selected[i];
        assert Due(before, id, now);
        var attempt := attempts[id];
        attempt := attempt.(token := attempt.token + 1);
        attempt := attempt.(state := Claimed);
        attempt := attempt.(lease := now + leaseTime);
        attempts := attempts[id := attempt];
        claims := claims + [(id, attempt.token)];
      }
      assert selected[..|selected|] == selected;
    }

    method Finalize(id: Id, token: int, result: Option<Submission>, now: int)
      returns (failed: Option<TxError>, status: Status)
      modifies this, ledger
      ensures failed.None? ==> FinalizeAttempt(old(Contents()), id, token, result, now) == Committed(Contents(), status)
      ensures failed.Some? ==> FinalizeAttempt(old(Contents()), id, token, result, now) == Aborted(failed.value)
      ensures failed.Some? ==> Contents() == old(Contents())
    {
      status := PENDING_RECONCILIATION;
      if id !in settlements || id !in attempts {
        return Some(SettlementNotFound), status;
      }
      var settlement, attempt := settlements[id], attempts[id];
      if attempt.token != token {
        return Some(StaleAttemptToken), status;
      }
      if Terminal(settlement.status) {
        return None, settlement.status;
      }
      if result == Some(SubmittedPaid) {
        var refused := ledger.ConsumeFunds(id, settlement.owner, settlement.amount);
        if refused.Some? {
          return Some(LedgerRefused(refused.value)), status;
        }
        status := SUCCESS;
        attempt := attempt.(state := Completed, lastOutcome := Some(ObservedPaid));
      } else if result == Some(SubmittedUnpaid) {
        var refused := ledger.ReleaseFunds(id, settlement.owner, settlement.amount);
        if refused.Some? {
          return Some(LedgerRefused(refused.value)), status;
        }
        status := FAILED;
        attempt := attempt.(state := Completed, lastOutcome := Some(ObservedUnpaid));
      } else {
        attempt := attempt.(state := Reconciling);
        attempt := attempt.(lastOutcome := Some(if result == Some(Ambiguous) then ObservedAmbiguous else ObservedUnknown));
        attempt := attempt.(lease := now);
      }
      settlements := settlements[id := settlement.(status := status)];
      attempts := attempts[id := attempt];
      failed := None;
    }
  }
}
