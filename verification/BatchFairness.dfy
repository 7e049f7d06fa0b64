/** How long a due row waits for the background batch, and which rows it never picks. */
module BatchFairness {
  import opened Ledger
  import opened Service
  import opened Protocol
  import opened Fencing

  /** A row the batch may pick once its lease has run out. */
  predicate Waiting(db: Db, id: Id) {
    && id in db.settlements && id in db.attempts && InPayout(db.settlements[id].status)
    && (db.attempts[id].state == Submitting || db.attempts[id].state == Reconciling)
  }

  /** The rows that the batch picks before `r`. */
  function Ahead(db: Db, r: Id): set<Id> {
    set id | id in db.attempts && Waiting(db, id) && Earlier(db, id, r)
  }

  /** `r` is due, and the clock has passed its lease. */
  predicate Overdue(w: World, r: Id) { Waiting(w.db, r) && w.db.attempts[r].lease < w.clock }

  /** The attempt of `r` is the same in both. */
  predicate Untouched(before: Db, after: Db, r: Id) {
    r in before.attempts && r in after.attempts && after.attempts[r] == before.attempts[r]
  }

  /** Whatever a change writes for another row comes behind `r`. */
  lemma ChangeStaysBehind(c: Config, db: Db, clock: int, change: Change, r: Id, id: Id)
    requires Waiting(db, r) && db.attempts[r].lease < clock && c.leaseTime >= 0
    requires Untouched(db, Changed(c, db, clock, change), r)
    requires id in Ahead(Changed(c, db, clock, change), r)
    ensures id in Ahead(db, r)
  {
    if change.BatchClaim? {
      ClaimRowsFrame(db, change.rows, clock, c.leaseTime);
      if id in change.rows {
        RowClaimed(db, change.rows, clock, c.leaseTime, id);
      } else {
        RowsUntouched(db, change.rows, clock, c.leaseTime, id);
      }
    }
  }

  lemma {:induction false} RowClaimed(db: Db, rows: seq<Id>, now: int, leaseTime: int, id: Id)
    requires id in rows && id in db.attempts
    ensures id in ClaimRows(db, rows, now, leaseTime).attempts
    ensures ClaimRows(db, rows, now, leaseTime).attempts[id].state == Claimed
  {
    var init, last := rows[..|rows| - 1], rows[|rows| - 1];
    assert rows == init + [last];
    ClaimRowsFrame(db, init, now, leaseTime);
    if last != id {
      RowClaimed(db, init, now, leaseTime, id);
    }
  }

  /** A row whose attempt is untouched is still waiting. */
  lemma StillWaiting(c: Config, db: Db, clock: int, change: Change, r: Id)
    requires Waiting(db, r) && db.attempts[r].lease < clock
    requires Untouched(db, Changed(c, db, clock, change), r)
    ensures Waiting(Changed(c, db, clock, change), r)
  {
    if change.BatchClaim? {
      ClaimRowsFrame(db, change.rows, clock, c.leaseTime);
    }
  }

  /** A pass that may take at least `limit` rows, with `r` not locked by another transaction. */
  ghost predicate IsPass(w: World, a: Action, r: Id, limit: nat) {
    a.Batch? && a.limit >= limit && r !in a.locked && IsBatch(w.db, w.clock, a.limit, a.locked, a.rows)
  }

  ghost function Passes(c: Config, w: World, actions: seq<Action>, r: Id, limit: nat): nat {
    if actions == [] then 0
    else
      var init, a := actions[..|actions| - 1], actions[|actions| - 1];
      Passes(c, w, init, r, limit) + (if IsPass(Run(c, w, init), a, r, limit) then 1 else 0)
  }

  function Elements(rows: seq<Id>): set<Id> { set id | id in rows }

  lemma {:induction false} DistinctCount(rows: seq<Id>)
    requires forall i, j | 0 <= i < j < |rows| :: rows[i] != rows[j]
    ensures |Elements(rows)| == |rows|
  {
    if rows == [] {
      assert Elements(rows) == {};
    } else {
      var init, last := rows[..|rows| - 1], rows[|rows| - 1];
      assert rows == init + [last];
      DistinctCount(init);
      forall i | 0 <= i < |init| ensures init[i] != last { assert rows[i] != rows[|rows| - 1]; }
      assert last !in Elements(init);
      assert Elements(rows) == Elements(init) + {last};
    }
  }

  lemma SubsetCount(a: set<Id>, b: set<Id>)
    requires a <= b
    ensures |a| <= |b|
  {
    assert b == a + (b - a);
  }

  /** A batch that leaves the due row `r` out is full, and all its rows are ahead of `r`. */
  lemma LeftOut(db: Db, now: int, limit: nat, locked: set<Id>, rows: seq<Id>, r: Id)
    requires IsBatch(db, now, limit, locked, rows) && r !in rows && r !in locked
    requires Waiting(db, r) && db.attempts[r].lease < now
    ensures |rows| == limit && Elements(rows) <= Ahead(db, r)
  {
    assert Due(db, r, now);
    forall id | id in Elements(rows) ensures id in Ahead(db, r) {
      var i :| 0 <= i < |rows| && rows[i] == id;
      assert Due(db, rows[i], now) && Earlier(db, rows[i], r);
    }
  }

  lemma ClaimedNotAhead(db: Db, rows: seq<Id>, now: int, leaseTime: int, r: Id, id: Id)
    requires id in rows && id in db.attempts
    ensures id !in Ahead(ClaimRows(db, rows, now, leaseTime), r)
  {
    hide ClaimRows;
    RowClaimed(db, rows, now, leaseTime, id);
  }

  lemma CountWithout(before: set<Id>, after: set<Id>, taken: set<Id>)
    requires taken <= before && after <= before && after * taken == {}
    ensures |after| + |taken| <= |before|
  {
    SubsetCount(after, before - taken);
    assert before == (before - taken) + taken;
  }

  /** Claiming rows that are all ahead of `r` takes each of them away from there, and puts none back. */
  lemma ClaimingShrinks(c: Config, db: Db, clock: int, rows: seq<Id>, r: Id)
    requires Waiting(db, r) && db.attempts[r].lease < clock && c.leaseTime >= 0
    requires Untouched(db, ClaimRows(db, rows, clock, c.leaseTime), r)
    requires Elements(rows) <= Ahead(db, r)
    ensures |Ahead(ClaimRows(db, rows, clock, c.leaseTime), r)| + |Elements(rows)| <= |Ahead(db, r)|
  {
    var next := ClaimRows(db, rows, clock, c.leaseTime);
    assert next == Changed(c, db, clock, BatchClaim(rows));
    hide ClaimRows, Changed, Waiting, Earlier;
    forall id | id in Ahead(next, r) ensures id in Ahead(db, r) && id !in Elements(rows) {
      ChangeStaysBehind(c, db, clock, BatchClaim(rows), r, id);
      if id in rows { ClaimedNotAhead(db, rows, clock, c.leaseTime, r, id); }
    }
    CountWithout(Ahead(db, r), Ahead(next, r), Elements(rows));
  }

  lemma TouchesClaimed(db: Db, rows: seq<Id>, now: int, leaseTime: int, r: Id)
    requires Waiting(db, r) && Untouched(db, ClaimRows(db, rows, now, leaseTime), r)
    ensures r !in rows
  {
    if r in rows { RowClaimed(db, rows, now, leaseTime, r); }
  }

  /** A pass that leaves `r` out takes `limit` of the rows ahead of it. */
  lemma PassShrinks(c: Config, w: World, a: Action, r: Id, limit: nat)
    requires Overdue(w, r) && c.leaseTime >= 0 && IsPass(w, a, r, limit)
    requires Untouched(w.db, Step(c, w, a).db, r)
    ensures |Ahead(Step(c, w, a).db, r)| + limit <= |Ahead(w.db, r)|
  {
    assert Step(c, w, a).db == ClaimRows(w.db, a.rows, w.clock, c.leaseTime);
    hide Step, ClaimRows, Ahead, Waiting, IsBatch, Untouched, Elements;
    BatchDistinct(w.db, w.clock, a.limit, a.locked, a.rows);
    DistinctCount(a.rows);
    TouchesClaimed(w.db, a.rows, w.clock, c.leaseTime, r);
    LeftOut(w.db, w.clock, a.limit, a.locked, a.rows, r);
    ClaimingShrinks(c, w.db, w.clock, a.rows, r);
  }

  lemma StepNeverOvertakes(c: Config, w: World, a: Action, r: Id)
    requires Overdue(w, r) && c.leaseTime >= 0 && Untouched(w.db, Step(c, w, a).db, r)
    ensures Ahead(Step(c, w, a).db, r) <= Ahead(w.db, r) && Overdue(Step(c, w, a), r)
  {
    hide Changed, Waiting, Ahead;
    var change := ChangeOf(w, a);
    forall id | id in Ahead(Step(c, w, a).db, r) ensures id in Ahead(w.db, r) {
      ChangeStaysBehind(c, w.db, w.clock, change, r, id);
    }
    StillWaiting(c, w.db, w.clock, change, r);
  }

  /** While `r` is left alone, each pass uses up `limit` of the rows that were ahead of it. */
  lemma {:induction false} WaitingBudget(c: Config, w: World, actions: seq<Action>, r: Id, limit: nat)
    requires Overdue(w, r) && c.leaseTime >= 0
    requires forall n | 0 <= n <= |actions| :: Untouched(w.db, Run(c, w, actions[..n]).db, r)
    ensures Overdue(Run(c, w, actions), r)
    ensures Passes(c, w, actions, r, limit) * limit + |Ahead(Run(c, w, actions).db, r)| <= |Ahead(w.db, r)|
  {
    hide Step, Ahead, Overdue, IsPass;
    assert actions[..|actions|] == actions;
    if actions != [] {
      var init, a := actions[..|actions| - 1], actions[|actions| - 1];
      forall n | 0 <= n <= |init| ensures Untouched(w.db, Run(c, w, init[..n]).db, r) {
        assert init[..n] == actions[..n];
      }
      WaitingBudget(c, w, init, r, limit);
      var before := Run(c, w, init);
      assert Untouched(w.db, before.db, r) by { assert init[..|init|] == init; }
      StepNeverOvertakes(c, before, a, r);
      SubsetCount(Ahead(Step(c, before, a).db, r), Ahead(before.db, r));
      if IsPass(before, a, r, limit) {
        PassShrinks(c, before, a, r, limit);
        assert (Passes(c, w, init, r, limit) + 1) * limit == Passes(c, w, init, r, limit) * limit + limit;
      }
    }
  }

  lemma QuotientExceeds(k: nat, limit: nat, passes: nat)
    requires limit >= 1 && passes >= k / limit + 1
    ensures passes * limit > k
  {
    assert k == k / limit * limit + k % limit;
    assert passes * limit >= (k / limit + 1) * limit;
  }

  /** A change that claims the row, or finalizes it under its present token. */
  predicate Serves(change: Change, r: Id, token: int) {
    || (change.BatchClaim? && r in change.rows)
    || (change.LaterClaim? && change.id == r)
    || (change.Finalization? && change.id == r && change.token == token)
  }

  lemma TouchServes(c: Config, db: Db, clock: int, change: Change, r: Id)
    requires Waiting(db, r) && !Untouched(db, Changed(c, db, clock, change), r)
    ensures Serves(change, r, db.attempts[r].token) || (change.FirstClaim? && change.id == r)
    ensures db.settlements[r].status != RESERVED
  {
    if change.BatchClaim? && r !in change.rows {
      RowsUntouched(db, change.rows, clock, c.leaseTime, r);
    }
  }

  lemma FirstClaimIsForReserved(c: Config, db: Db, clock: int, r: Id)
    requires Waiting(db, r)
    ensures Changed(c, db, clock, FirstClaim(r)) == db
  {
  }

  /** The first step of the run that serves `r`, and changes its attempt; until then the attempt stays as it was. */
  ghost predicate ServedAt(c: Config, w: World, actions: seq<Action>, r: Id, n: nat)
    requires r in w.db.attempts
  {
    && n < |actions|
    && (forall m | 0 <= m <= n :: Untouched(w.db, Run(c, w, actions[..m]).db, r))
    && Serves(ChangeOf(Run(c, w, actions[..n]), actions[n]), r, w.db.attempts[r].token)
    && !Untouched(w.db, Step(c, Run(c, w, actions[..n]), actions[n]).db, r)
  }

  lemma StepTouchServes(c: Config, w: World, a: Action, r: Id)
    requires Waiting(w.db, r) && !Untouched(w.db, Step(c, w, a).db, r)
    ensures Serves(ChangeOf(w, a), r, w.db.attempts[r].token)
  {
    hide Changed, Waiting, ChangeOf;
    TouchServes(c, w.db, w.clock, ChangeOf(w, a), r);
    FirstClaimIsForReserved(c, w.db, w.clock, r);
    assert Untouched(w.db, w.db, r) by { IsWaiting(w.db, r); }
  }

  lemma IsWaiting(db: Db, r: Id)
    requires Waiting(db, r)
    ensures r in db.attempts
  {
  }

  lemma {:induction false} FirstService(c: Config, w: World, actions: seq<Action>, r: Id, n: nat)
    requires Overdue(w, r) && c.leaseTime >= 0
    requires n <= |actions| && !Untouched(w.db, Run(c, w, actions[..n]).db, r)
    ensures exists m :: ServedAt(c, w, actions, r, m)
    decreases n
  {
    hide Step, Serves;
    if k: nat :| k < n && !Untouched(w.db, Run(c, w, actions[..k]).db, r) {
      FirstService(c, w, actions, r, k);
    } else {
      assert n > 0;
      var before := actions[..n - 1];
      assert actions[..n][..n - 1] == before;
      assert forall m | 0 <= m <= n - 1 :: before[..m] == actions[..m];
      WaitingBudget(c, w, before, r, 0);
      StepTouchServes(c, Run(c, w, before), actions[n - 1], r);
      assert ServedAt(c, w, actions, r, n - 1);
    }
  }

  /** Bounded waiting: an overdue row with `k` rows ahead of it is claimed, or finalized by its present holder,
      before `k / limit + 1` passes are over, whatever else the other calls do in between. */
  lemma BoundedWaiting(c: Config, w: World, actions: seq<Action>, r: Id, limit: nat)
    requires Overdue(w, r) && c.leaseTime >= 0 && limit >= 1
    requires Passes(c, w, actions, r, limit) >= |Ahead(w.db, r)| / limit + 1
    ensures exists n :: ServedAt(c, w, actions, r, n)
  {
    hide Run, Ahead, Overdue, Passes, ServedAt;
    if n: nat :| n <= |actions| && !Untouched(w.db, Run(c, w, actions[..n]).db, r) {
      FirstService(c, w, actions, r, n);
    } else {
      WaitingBudget(c, w, actions, r, limit);
      QuotientExceeds(|Ahead(w.db, r)|, limit, Passes(c, w, actions, r, limit));
      assert false;
    }
  }

  // ---------------------------------------------------------------- the batch is determined

  lemma NotLater(db: Db, now: int, limit: nat, locked: set<Id>, a: seq<Id>, b: seq<Id>, k: nat)
    requires IsBatch(db, now, limit, locked, a) && IsBatch(db, now, limit, locked, b)
    requires k < |a| && k <= |b| && a[..k] == b[..k]
    ensures k < |b| && (b[k] == a[k] || Earlier(db, b[k], a[k]))
  {
    BatchDistinct(db, now, limit, locked, a);
    assert Due(db, a[k], now);
    forall i | 0 <= i < k ensures b[i] != a[k] { assert a[..k][i] == b[..k][i]; }
  }

  /** There is exactly one batch for a clock, a limit and a set of locked rows: the due rows in the order of lease
      and settlement, no row twice. */
  lemma BatchIsUnique(db: Db, now: int, limit: nat, locked: set<Id>, a: seq<Id>, b: seq<Id>)
    requires IsBatch(db, now, limit, locked, a) && IsBatch(db, now, limit, locked, b)
    ensures a == b && |Elements(a)| == |a|
  {
    BatchDistinct(db, now, limit, locked, a);
    DistinctCount(a);
    hide IsBatch, Elements;
    var k := 0;
    while k < |a| && k < |b|
      invariant k <= |a| && k <= |b| && a[..k] == b[..k]
    {
      NotLater(db, now, limit, locked, a, b, k);
      NotLater(db, now, limit, locked, b, a, k);
      k := k + 1;
    }
    if k < |a| { NotLater(db, now, limit, locked, a, b, k); }
    if k < |b| { NotLater(db, now, limit, locked, b, a, k); }
    assert a == a[..k] && b == b[..k];
  }

  // ---------------------------------------------------------------- rows the batch never picks

  /** The query picks a row exactly when it is due, free, and among the earliest: never one that is claimed. */
  lemma BatchNeverPicksClaimed(db: Db, now: int, limit: nat, locked: set<Id>, rows: seq<Id>, id: Id)
    requires IsBatch(db, now, limit, locked, rows)
    requires id in db.attempts && db.attempts[id].state == Claimed
    ensures id !in rows
  {
    forall i | 0 <= i < |rows| ensures rows[i] != id {
      assert Due(db, rows[i], now);
    }
  }

  /** A claim of this one row, or its finalization under the token. */
  predicate Attends(change: Change, id: Id, token: int) {
    (change.LaterClaim? && change.id == id) || (change.Finalization? && change.id == id && change.token == token)
  }

  /** Nobody reconciles the row by hand, and the holder of the token brings no result. */
  ghost predicate Unattended(c: Config, w: World, actions: seq<Action>, id: Id, token: int) {
    forall n | 0 <= n < |actions| :: !Attends(ChangeOf(Run(c, w, actions[..n]), actions[n]), id, token)
  }

  lemma ClaimedUntouched(c: Config, db: Db, clock: int, change: Change, id: Id)
    requires id in db.attempts && db.attempts[id].state == Claimed && !Attends(change, id, db.attempts[id].token)
    requires change.BatchClaim? ==> id !in change.rows
    ensures Untouched(db, Changed(c, db, clock, change), id)
  {
    if change.BatchClaim? { RowsUntouched(db, change.rows, clock, c.leaseTime, id); }
  }

  lemma StepLeavesClaimed(c: Config, w: World, a: Action, id: Id)
    requires id in w.db.attempts && w.db.attempts[id].state == Claimed && !Attends(ChangeOf(w, a), id, w.db.attempts[id].token)
    ensures Untouched(w.db, Step(c, w, a).db, id)
  {
    hide IsBatch, Changed, Attends;
    if a.Batch? && IsBatch(w.db, w.clock, a.limit, a.locked, a.rows) {
      BatchNeverPicksClaimed(w.db, w.clock, a.limit, a.locked, a.rows, id);
    }
    ClaimedUntouched(c, w.db, w.clock, ChangeOf(w, a), id);
  }

  lemma UnattendedPrefix(c: Config, w: World, actions: seq<Action>, id: Id, token: int, m: nat)
    requires Unattended(c, w, actions, id, token) && m <= |actions|
    ensures Unattended(c, w, actions[..m], id, token)
  {
    hide Run, ChangeOf, Attends;
    forall n | 0 <= n < m ensures !Attends(ChangeOf(Run(c, w, actions[..m][..n]), actions[..m][n]), id, token) {
      assert actions[..m][..n] == actions[..n];
    }
  }

  /** A claim whose worker is gone stays as it is through any run, however many passes the background makes and
      whatever it does for other rows, until somebody claims this row by hand or its own result arrives. */
  lemma {:induction false} AbandonedClaimStays(c: Config, w: World, actions: seq<Action>, id: Id)
    requires id in w.db.attempts && w.db.attempts[id].state == Claimed
    requires Unattended(c, w, actions, id, w.db.attempts[id].token)
    ensures Untouched(w.db, Run(c, w, actions).db, id)
  {
    hide Step, ChangeOf, Attends;
    if actions != [] {
      var m := |actions| - 1;
      UnattendedPrefix(c, w, actions, id, w.db.attempts[id].token, m);
      AbandonedClaimStays(c, w, actions[..m], id);
      StepLeavesClaimed(c, Run(c, w, actions[..m]), actions[m], id);
    }
  }

  // ---------------------------------------------------------------- exactly which rows the batch recovers

  lemma {:induction false} EarliestOf(db: Db, rows: set<Id>) returns (first: Id)
    requires rows != {} && rows <= db.attempts.Keys
    ensures first in rows && forall id | id in rows && id != first :: Earlier(db, first, id)
    decreases rows
  {
    var x :| x in rows;
    if rows == {x} {
      first := x;
    } else {
      assert rows - {x} != {} by { assert rows == (rows - {x}) + {x}; }
      var y := EarliestOf(db, rows - {x});
      first := if Earlier(db, x, y) then x else y;
      forall id | id in rows && id != first ensures Earlier(db, first, id) {
        assert id == x || id in rows - {x};
      }
    }
  }

  /** For any clock, limit and locked rows there is a batch. */
  lemma BatchExists(db: Db, now: int, limit: nat, locked: set<Id>) returns (rows: seq<Id>)
    ensures IsBatch(db, now, limit, locked, rows)
  {
    var due := set id | id in db.settlements && Due(db, id, now) && id !in locked;
    var left := due;
    rows := [];
    while |rows| < limit && left != {}
      invariant left <= due && |rows| <= limit
      invariant forall id :: id in due <==> id in rows || id in left
      invariant forall i | 0 <= i < |rows| :: rows[i] in due && rows[i] !in left
      invariant forall i, j | 0 <= i < j < |rows| :: Earlier(db, rows[i], rows[j])
      invariant forall i, id | 0 <= i < |rows| && id in left :: Earlier(db, rows[i], id)
      decreases left
    {
      var first := EarliestOf(db, left);
      rows := rows + [first];
      left := left - {first};
    }
  }

  /** A run of `k` passes and nothing else. */
  lemma {:induction false} PassRun(c: Config, w: World, r: Id, limit: nat, k: nat) returns (actions: seq<Action>)
    ensures Passes(c, w, actions, r, limit) == k && forall n | 0 <= n < |actions| :: actions[n].Batch?
  {
    hide IsBatch, Step;
    if k == 0 {
      actions := [];
    } else {
      var init := PassRun(c, w, r, limit, k - 1);
      var now := Run(c, w, init);
      var rows := BatchExists(now.db, now.clock, limit, {});
      actions := init + [Batch(limit, {}, rows)];
      assert actions[..|actions| - 1] == init;
    }
  }

  /** A pass of the background serves `r`. */
  ghost predicate PickedAt(c: Config, w: World, actions: seq<Action>, r: Id, n: nat)
    requires r in w.db.attempts
  {
    ServedAt(c, w, actions, r, n) && ChangeOf(Run(c, w, actions[..n]), actions[n]).BatchClaim?
  }

  /** Enough passes, with nobody attending to `r`, pick it in the end. */
  ghost predicate PassesPick(c: Config, w: World, r: Id, limit: nat)
    requires r in w.db.attempts && limit >= 1
  {
    forall actions: seq<Action> |
      Unattended(c, w, actions, r, w.db.attempts[r].token) && Passes(c, w, actions, r, limit) >= |Ahead(w.db, r)| / limit + 1 ::
      exists n :: PickedAt(c, w, actions, r, n)
  }

  lemma ServedIsPicked(c: Config, w: World, actions: seq<Action>, r: Id, n: nat)
    requires r in w.db.attempts && ServedAt(c, w, actions, r, n) && Unattended(c, w, actions, r, w.db.attempts[r].token)
    ensures PickedAt(c, w, actions, r, n)
  {
    hide Run, ChangeOf, Untouched, Step;
    assert !Attends(ChangeOf(Run(c, w, actions[..n]), actions[n]), r, w.db.attempts[r].token);
  }

  lemma ClaimedIsNotPicked(c: Config, w: World, actions: seq<Action>, r: Id, n: nat)
    requires r in w.db.attempts && w.db.attempts[r].state == Claimed && n < |actions|
    requires Unattended(c, w, actions, r, w.db.attempts[r].token)
    ensures !PickedAt(c, w, actions, r, n)
  {
    hide Run, ChangeOf, Step, Attends;
    UnattendedPrefix(c, w, actions, r, w.db.attempts[r].token, n);
    AbandonedClaimStays(c, w, actions[..n], r);
    assert !Attends(ChangeOf(Run(c, w, actions[..n]), actions[n]), r, w.db.attempts[r].token);
    StepLeavesClaimed(c, Run(c, w, actions[..n]), actions[n], r);
  }

  lemma BatchesAttendNobody(c: Config, w: World, actions: seq<Action>, r: Id, token: int)
    requires forall n | 0 <= n < |actions| :: actions[n].Batch?
    ensures Unattended(c, w, actions, r, token)
  {
    hide Run, IsBatch;
  }

  /** Background passes recover an overdue row in payout if and only if it is not claimed. */
  lemma PassesPickIffNotClaimed(c: Config, w: World, r: Id, limit: nat)
    requires r in w.db.settlements && InPayout(w.db.settlements[r].status)
    requires r in w.db.attempts && w.db.attempts[r].state != Completed && w.db.attempts[r].lease < w.clock
    requires c.leaseTime >= 0 && limit >= 1
    ensures PassesPick(c, w, r, limit) <==> w.db.attempts[r].state != Claimed
  {
    var enough := |Ahead(w.db, r)| / limit + 1;
    hide Passes, Unattended, PickedAt, ServedAt, Ahead, Run;
    if w.db.attempts[r].state != Claimed {
      forall actions: seq<Action> |
        Unattended(c, w, actions, r, w.db.attempts[r].token) && Passes(c, w, actions, r, limit) >= enough
        ensures exists n :: PickedAt(c, w, actions, r, n)
      {
        BoundedWaiting(c, w, actions, r, limit);
        var n :| ServedAt(c, w, actions, r, n);
        ServedIsPicked(c, w, actions, r, n);
      }
    } else {
      var actions := PassRun(c, w, r, limit, enough);
      BatchesAttendNobody(c, w, actions, r, w.db.attempts[r].token);
      forall n ensures !PickedAt(c, w, actions, r, n) {
        NotPickedAnywhere(c, w, actions, r, n);
      }
    }
  }

  lemma NotPickedAnywhere(c: Config, w: World, actions: seq<Action>, r: Id, n: nat)
    requires r in w.db.attempts && w.db.attempts[r].state == Claimed
    requires Unattended(c, w, actions, r, w.db.attempts[r].token)
    ensures !PickedAt(c, w, actions, r, n)
  {
    hide Unattended, Run;
    if n < |actions| { ClaimedIsNotPicked(c, w, actions, r, n); }
  }
}
