/** Statuses only move forward, tokens only grow, and an old token has no effect. */
module Fencing {
  import opened Options
  import opened Ledger
  import opened Provider
  import opened Service
  import opened Accounting
  import opened Protocol

  // ---------------------------------------------------------------- statuses

  function Rank(s: Status): nat {
    match s
    case RESERVED => 0
    case PAYOUT_IN_PROGRESS => 1
    case PENDING_RECONCILIATION => 2
    case SUCCESS => 3
    case FAILED => 3
  }

  /** `after` is a later state of the same settlement. */
  ghost predicate Progressed(before: Settlement, after: Settlement) {
    && after == before.(status := after.status)
    && Rank(before.status) <= Rank(after.status)
    && (Terminal(before.status) ==> after.status == before.status)
  }

  ghost predicate Kept(before: Db, after: Db) {
    forall id | id in before.settlements ::
      id in after.settlements && Progressed(before.settlements[id], after.settlements[id])
  }

  lemma KeptReflexive(a: Db)
    ensures Kept(a, a)
  {
  }

  lemma KeptTransitive(a: Db, b: Db, c: Db)
    requires Kept(a, b) && Kept(b, c)
    ensures Kept(a, c)
  {
  }

  lemma ChangedKept(c: Config, db: Db, clock: int, change: Change)
    ensures Kept(db, Changed(c, db, clock, change))
  {
    if change.BatchClaim? {
      ClaimRowsFrame(db, change.rows, clock, c.leaseTime);
    }
  }

  /** In all runs a settlement keeps its identity and its money, its status only moves up the rank
      RESERVED < PAYOUT_IN_PROGRESS < PENDING_RECONCILIATION < terminal, and a terminal status never changes. */
  lemma {:induction false} StatusesOnlyProgress(c: Config, w: World, actions: seq<Action>)
    ensures Kept(w.db, Run(c, w, actions).db)
  {
    hide Kept, Changed;
    if actions == [] {
      KeptReflexive(w.db);
    } else {
      var before, a := Run(c, w, actions[..|actions| - 1]), actions[|actions| - 1];
      StatusesOnlyProgress(c, w, actions[..|actions| - 1]);
      ChangedKept(c, before.db, before.clock, ChangeOf(before, a));
      KeptTransitive(w.db, before.db, Step(c, before, a).db);
    }
  }

  // ---------------------------------------------------------------- tokens

  /** The last token of a settlement; zero before the first. */
  function TokenAt(db: Db, id: Id): int { if id in db.attempts then db.attempts[id].token else 0 }

  /** Whether these grants include one for `id`. */
  ghost predicate Granted(grants: seq<Issue>, id: Id) { exists i | 0 <= i < |grants| :: grants[i].id == id }

  /** A change hands out, per settlement, at most one token: the next one. */
  ghost predicate NextTokens(before: Db, after: Db, grants: seq<Issue>) {
    && (forall i, j | 0 <= i < j < |grants| :: grants[i].id != grants[j].id)
    && (forall i | 0 <= i < |grants| :: grants[i].token == TokenAt(before, grants[i].id) + 1 == TokenAt(after, grants[i].id))
    && (forall id :: !Granted(grants, id) ==> TokenAt(after, id) == TokenAt(before, id))
  }

  lemma SingleGrant(before: Db, after: Db, g: Issue)
    requires g.token == TokenAt(before, g.id) + 1 == TokenAt(after, g.id)
    requires forall id | id != g.id :: TokenAt(after, id) == TokenAt(before, id)
    ensures NextTokens(before, after, [g])
  {
    assert [g][0] == g;
    forall id | !Granted([g], id) ensures TokenAt(after, id) == TokenAt(before, id) {
      assert [g][0].id != id;
    }
  }

  lemma {:induction false} RowTokens(db: Db, rows: seq<Id>, now: int, leaseTime: int, id: Id)
    requires forall i | 0 <= i < |rows| :: rows[i] in db.attempts
    requires forall i, j | 0 <= i < j < |rows| :: rows[i] != rows[j]
    ensures TokenAt(ClaimRows(db, rows, now, leaseTime), id) == TokenAt(db, id) + (if id in rows then 1 else 0)
  {
    if rows != [] {
      var init, last := rows[..|rows| - 1], rows[|rows| - 1];
      assert rows == init + [last];
      RowTokens(db, init, now, leaseTime, id);
      ClaimRowsFrame(db, init, now, leaseTime);
    }
  }

  lemma BatchDistinct(db: Db, now: int, limit: nat, locked: set<Id>, rows: seq<Id>)
    requires IsBatch(db, now, limit, locked, rows)
    ensures forall i, j | 0 <= i < j < |rows| :: rows[i] != rows[j]
    ensures forall i | 0 <= i < |rows| :: rows[i] in db.attempts
  {
    forall i, j | 0 <= i < j < |rows| ensures rows[i] != rows[j] {
      assert Earlier(db, rows[i], rows[j]);
    }
    forall i | 0 <= i < |rows| ensures rows[i] in db.attempts {
      assert Due(db, rows[i], now);
    }
  }

  lemma BatchTokens(c: Config, db: Db, clock: int, rows: seq<Id>, call: nat)
    requires forall i | 0 <= i < |rows| :: rows[i] in db.attempts
    requires forall i, j | 0 <= i < j < |rows| :: rows[i] != rows[j]
    ensures NextTokens(db, ClaimRows(db, rows, clock, c.leaseTime), Grants(c, db, clock, BatchClaim(rows), call))
  {
    var after, grants := ClaimRows(db, rows, clock, c.leaseTime), Grants(c, db, clock, BatchClaim(rows), call);
    ClaimRowsFrame(db, rows, clock, c.leaseTime);
    forall i | 0 <= i < |grants|
      ensures grants[i].token == TokenAt(db, grants[i].id) + 1 == TokenAt(after, grants[i].id)
    {
      RowTokens(db, rows, clock, c.leaseTime, rows[i]);
    }
    forall id | !Granted(grants, id) ensures TokenAt(after, id) == TokenAt(db, id) {
      RowTokens(db, rows, clock, c.leaseTime, id);
      assert id !in rows by {
        forall i | 0 <= i < |rows| ensures rows[i] != id { assert grants[i].id != id; }
      }
    }
  }

  lemma NoGrant(before: Db, after: Db)
    requires forall id :: TokenAt(after, id) == TokenAt(before, id)
    ensures NextTokens(before, after, [])
  {
  }

  lemma ChangeTokens(c: Config, db: Db, clock: int, change: Change, call: nat)
    requires change.BatchClaim? ==>
      (forall i | 0 <= i < |change.rows| :: change.rows[i] in db.attempts)
      && (forall i, j | 0 <= i < j < |change.rows| :: change.rows[i] != change.rows[j])
    ensures NextTokens(db, Changed(c, db, clock, change), Grants(c, db, clock, change, call))
  {
    hide NextTokens, Granted;
    var after, grants := Changed(c, db, clock, change), Grants(c, db, clock, change, call);
    if change.BatchClaim? {
      BatchTokens(c, db, clock, change.rows, call);
    } else if |grants| == 1 {
      SingleGrant(db, after, grants[0]);
      assert grants == [grants[0]];
    } else {
      NoGrant(db, after);
      assert grants == [];
    }
  }

  lemma StepTokens(c: Config, w: World, a: Action)
    ensures NextTokens(w.db, Step(c, w, a).db, Grants(c, w.db, w.clock, ChangeOf(w, a), CallOf(w, a)))
  {
    hide NextTokens, Changed, Grants, IsBatch;
    if a.Batch? && IsBatch(w.db, w.clock, a.limit, a.locked, a.rows) {
      BatchDistinct(w.db, w.clock, a.limit, a.locked, a.rows);
    }
    ChangeTokens(c, w.db, w.clock, ChangeOf(w, a), CallOf(w, a));
  }

  /** The record of tokens handed out: positive, at most the last, strictly increasing per settlement, and ending in the last. */
  ghost predicate Recorded(db: Db, issued: seq<Issue>) {
    && (forall i | 0 <= i < |issued| :: 0 < issued[i].token <= TokenAt(db, issued[i].id))
    && (forall i, j | 0 <= i < j < |issued| :: issued[i].id == issued[j].id ==> issued[i].token < issued[j].token)
    && (forall id :: TokenAt(db, id) >= 0 && (TokenAt(db, id) > 0 ==> Issued(issued, id, TokenAt(db, id))))
  }

  ghost predicate Issued(issued: seq<Issue>, id: Id, token: int) {
    exists i | 0 <= i < |issued| :: issued[i].id == id && issued[i].token == token
  }

  lemma RecordedStep(before: Db, after: Db, issued: seq<Issue>, grants: seq<Issue>)
    requires Recorded(before, issued) && NextTokens(before, after, grants)
    ensures Recorded(after, issued + grants)
  {
    var more := issued + grants;
    forall id ensures TokenAt(after, id) >= 0 && (TokenAt(after, id) > 0 ==> Issued(more, id, TokenAt(after, id))) {
      if Granted(grants, id) {
        var i :| 0 <= i < |grants| && grants[i].id == id;
        assert more[|issued| + i] == grants[i];
      } else if TokenAt(before, id) > 0 {
        var i :| 0 <= i < |issued| && issued[i].id == id && issued[i].token == TokenAt(before, id);
        assert more[i] == issued[i];
      }
    }
    forall i | 0 <= i < |more| ensures 0 < more[i].token <= TokenAt(after, more[i].id) {
      NotLower(before, after, grants, more[i].id);
    }
  }

  lemma NotLower(before: Db, after: Db, grants: seq<Issue>, id: Id)
    requires NextTokens(before, after, grants)
    ensures TokenAt(before, id) <= TokenAt(after, id)
  {
    if Granted(grants, id) {
      var i :| 0 <= i < |grants| && grants[i].id == id;
      assert grants[i].token == TokenAt(before, id) + 1;
    }
  }

  /** Over all runs the tokens of a settlement are pairwise distinct and strictly increasing. */
  lemma {:induction false} TokensStrictlyIncrease(c: Config, w: World, actions: seq<Action>)
    requires Recorded(w.db, w.issued)
    ensures Recorded(Run(c, w, actions).db, Run(c, w, actions).issued)
  {
    hide Recorded, NextTokens, Changed, Grants, IsBatch;
    if actions != [] {
      var before, a := Run(c, w, actions[..|actions| - 1]), actions[|actions| - 1];
      TokensStrictlyIncrease(c, w, actions[..|actions| - 1]);
      StepTokens(c, before, a);
      RecordedStep(before.db, Step(c, before, a).db, before.issued,
        Grants(c, before.db, before.clock, ChangeOf(before, a), CallOf(before, a)));
    }
  }

  // ---------------------------------------------------------------- fencing

  /** The last token handed out for `id`. */
  ghost predicate LastIssued(issued: seq<Issue>, id: Id, token: int) {
    exists i | 0 <= i < |issued| ::
      issued[i].id == id && issued[i].token == token && forall j | i < j < |issued| :: issued[j].id != id
  }

  /** A finalization under any token but the last one issued, whether superseded or never issued at all, changes
      nothing, whatever it found out. */
  lemma StaleFinalizeIsNoOp(c: Config, w: World, id: Id, token: int, result: Option<Submission>)
    requires Recorded(w.db, w.issued) && Tracked(w.db.settlements, w.db.attempts)
    requires !LastIssued(w.issued, id, token)
    ensures Changed(c, w.db, w.clock, Finalization(id, token, result)) == w.db
    ensures FinalizeAttempt(w.db, id, token, result, w.clock).Aborted?
  {
    if id in w.db.attempts { RowTokenIsLast(w.db, w.issued, id); }
    hide LastIssued, Recorded, PostEvent;
  }

  lemma RowTokenIsLast(db: Db, issued: seq<Issue>, id: Id)
    requires Recorded(db, issued) && TokenAt(db, id) > 0
    ensures LastIssued(issued, id, TokenAt(db, id))
  {
    assert Issued(issued, id, TokenAt(db, id));
    var i :| 0 <= i < |issued| && issued[i].id == id && issued[i].token == TokenAt(db, id);
    forall j | i < j < |issued| ensures issued[j].id != id {
      NothingLater(db, issued, i, j);
    }
  }

  lemma NothingLater(db: Db, issued: seq<Issue>, i: nat, j: nat)
    requires Recorded(db, issued) && i < j < |issued| && issued[i].token == TokenAt(db, issued[i].id)
    ensures issued[j].id != issued[i].id
  {
  }

  /** While an attempt is claimed under an unexpired lease, no action hands out a token for it. */
  lemma LeaseExcludes(c: Config, w: World, a: Action, id: Id)
    requires Tracked(w.db.settlements, w.db.attempts)
    requires id in w.db.attempts && w.db.attempts[id].state == Claimed && w.db.attempts[id].lease > w.clock
    ensures TokenAt(Step(c, w, a).db, id) == TokenAt(w.db, id)
    ensures !Granted(Grants(c, w.db, w.clock, ChangeOf(w, a), CallOf(w, a)), id)
  {
    var change := ChangeOf(w, a);
    var grants := Grants(c, w.db, w.clock, change, CallOf(w, a));
    StepTokens(c, w, a);
    if change.BatchClaim? {
      BatchInPayout(w, a);
      forall i | 0 <= i < |grants| ensures grants[i].id != id {
        assert Due(w.db, change.rows[i], w.clock);
      }
    }
  }

  /** After a terminal status no action changes the settlement or its attempt, or hands out a token for it. */
  lemma TerminalIsFinal(c: Config, w: World, a: Action, id: Id)
    requires id in w.db.settlements && Terminal(w.db.settlements[id].status)
    ensures var next := Step(c, w, a).db;
      && id in next.settlements && next.settlements[id] == w.db.settlements[id]
      && (id in w.db.attempts ==> id in next.attempts && next.attempts[id] == w.db.attempts[id])
    ensures !Granted(Grants(c, w.db, w.clock, ChangeOf(w, a), CallOf(w, a)), id)
  {
    var change := ChangeOf(w, a);
    BatchInPayout(w, a);
    hide ChangeOf, Due, Grants, Changed, Granted;
    if change.BatchClaim? {
      BatchSparesEnded(c, w.db, w.clock, change.rows, id, CallOf(w, a));
    } else {
      ChangeSparesEnded(c, w.db, w.clock, change, id, CallOf(w, a));
    }
  }

  lemma BatchSparesEnded(c: Config, db: Db, clock: int, rows: seq<Id>, id: Id, call: nat)
    requires id in db.settlements && Terminal(db.settlements[id].status)
    requires forall i | 0 <= i < |rows| :: Due(db, rows[i], clock)
    ensures var after := Changed(c, db, clock, BatchClaim(rows));
      && id in after.settlements && after.settlements[id] == db.settlements[id]
      && (id in db.attempts ==> id in after.attempts && after.attempts[id] == db.attempts[id])
    ensures !Granted(Grants(c, db, clock, BatchClaim(rows), call), id)
  {
    ClaimRowsFrame(db, rows, clock, c.leaseTime);
    forall i | 0 <= i < |rows| ensures rows[i] != id { assert Due(db, rows[i], clock); }
    RowsUntouched(db, rows, clock, c.leaseTime, id);
    hide ClaimRows, Due;
  }

  lemma ChangeSparesEnded(c: Config, db: Db, clock: int, change: Change, id: Id, call: nat)
    requires id in db.settlements && Terminal(db.settlements[id].status) && !change.BatchClaim?
    ensures var after := Changed(c, db, clock, change);
      && id in after.settlements && after.settlements[id] == db.settlements[id]
      && (id in db.attempts ==> id in after.attempts && after.attempts[id] == db.attempts[id])
    ensures !Granted(Grants(c, db, clock, change, call), id)
  {
    hide PostEvent, NewSettlement, KeyTaken, Quotable;
  }

  lemma {:induction false} RowsUntouched(db: Db, rows: seq<Id>, now: int, leaseTime: int, id: Id)
    requires id !in rows
    ensures id in db.attempts ==>
      id in ClaimRows(db, rows, now, leaseTime).attempts && ClaimRows(db, rows, now, leaseTime).attempts[id] == db.attempts[id]
  {
    if rows != [] {
      assert rows == rows[..|rows| - 1] + [rows[|rows| - 1]];
      RowsUntouched(db, rows[..|rows| - 1], now, leaseTime, id);
    }
  }
}
