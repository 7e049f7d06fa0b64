/** From every reachable state each settlement can still be brought to an end, within a bounded schedule. */
module Progress {
  import opened Options
  import opened Routing
  import opened Ledger
  import opened Provider
  import opened Service
  import opened Accounting
  import opened Protocol
  import opened Fencing
  import opened IdempotentCreate
  import opened Agreement

  // ---------------------------------------------------------------- reachability in a number of steps

  /** In each step the provider's sequence, if it has one, skips `gap` positions. */
  ghost predicate Steady(actions: seq<Action>, gap: nat) {
    forall i | 0 <= i < |actions| :: actions[i].Advance? ==> actions[i].env.skipped == gap
  }

  ghost predicate Reaches(c: Config, w: World, end: World, n: nat, gap: nat) {
    exists actions: seq<Action> :: |actions| <= n && Run(c, w, actions) == end && Steady(actions, gap)
  }

  lemma ReachesSelf(c: Config, w: World, gap: nat)
    ensures Reaches(c, w, w, 0, gap)
  {
    assert Run(c, w, []) == w && Steady([], gap);
  }

  lemma ReachesNext(c: Config, w: World, mid: World, n: nat, a: Action, gap: nat)
    requires Reaches(c, w, mid, n, gap) && (a.Advance? ==> a.env.skipped == gap)
    ensures Reaches(c, w, Step(c, mid, a), n + 1, gap)
  {
    hide Step;
    var actions: seq<Action> :| |actions| <= n && Run(c, w, actions) == mid && Steady(actions, gap);
    var more := actions + [a];
    assert more[..|more| - 1] == actions;
    assert Run(c, w, more) == Step(c, mid, a) && Steady(more, gap);
  }

  lemma ReachesTrans(c: Config, w: World, mid: World, end: World, m: nat, n: nat, gap: nat)
    requires Reaches(c, w, mid, m, gap) && Reaches(c, mid, end, n, gap)
    ensures Reaches(c, w, end, m + n, gap)
  {
    hide Step;
    var a: seq<Action> :| |a| <= m && Run(c, w, a) == mid && Steady(a, gap);
    var b: seq<Action> :| |b| <= n && Run(c, mid, b) == end && Steady(b, gap);
    RunConcat(c, w, a, b);
    assert |a + b| <= m + n && Steady(a + b, gap);
  }

  // ---------------------------------------------------------------- what every reachable state provides

  /** Each settlement came from a request. */
  ghost predicate Requested(db: Db) {
    forall id | id in db.settlements :: exists r: Request :: Belongs(db, id, r)
  }

  ghost predicate AllDecided(ops: Operations) { forall id | id in ops :: Decided(ops[id]) }

  ghost predicate Ready(w: World, opening: OpeningBalances) {
    Consistent(w.db, opening) && Requested(w.db) && AllDecided(w.ops)
  }

  lemma InsertionRequested(db: Db, id: Id, r: Request, q: RouteQuote)
    requires Requested(db) && InsertReserved(db, id, r, q).Committed?
    ensures Requested(InsertReserved(db, id, r, q).db)
  {
    var next := InsertReserved(db, id, r, q).db;
    forall i | i in next.settlements ensures exists x: Request :: Belongs(next, i, x) {
      if i == id {
        assert Belongs(next, id, r);
      } else {
        var x: Request :| Belongs(db, i, x);
        assert Belongs(next, i, x);
      }
    }
  }

  lemma KeptRequested(before: Db, after: Db)
    requires Requested(before) && Kept(before, after) && after.settlements.Keys == before.settlements.Keys
    ensures Requested(after)
  {
    forall i | i in after.settlements ensures exists x: Request :: Belongs(after, i, x) {
      var x: Request :| Belongs(before, i, x);
      assert Belongs(after, i, x);
    }
  }

  lemma ChangedRequested(c: Config, db: Db, clock: int, change: Change)
    requires Requested(db)
    ensures Requested(Changed(c, db, clock, change))
  {
    hide Kept, Requested;
    ChangedKept(c, db, clock, change);
    if change.Insertion? && InsertReserved(db, change.id, change.request, change.quote).Committed? {
      InsertionRequested(db, change.id, change.request, change.quote);
    } else {
      if change.BatchClaim? { ClaimRowsFrame(db, change.rows, clock, c.leaseTime); }
      KeptRequested(db, Changed(c, db, clock, change));
    }
  }

  lemma StoredDecided(ops: Operations, m: Mode, id: Id, position: nat)
    requires Settling(m) && AllDecided(ops)
    ensures AllDecided(Stored(ops, m, id, position))
  {
  }

  lemma {:induction false} AlwaysRequested(c: Config, w: World, actions: seq<Action>)
    requires Requested(w.db)
    ensures Requested(Run(c, w, actions).db)
  {
    hide Requested, Changed, CallsAfter, Grants, ChangeOf;
    if actions != [] {
      AlwaysRequested(c, w, actions[..|actions| - 1]);
      var before, a := Run(c, w, actions[..|actions| - 1]), actions[|actions| - 1];
      ChangedRequested(c, before.db, before.clock, ChangeOf(before, a));
    }
  }

  lemma {:induction false} AlwaysReady(c: Config, w: World, opening: OpeningBalances, actions: seq<Action>)
    requires Settling(c.mode) && Ready(w, opening)
    ensures Ready(Run(c, w, actions), opening)
  {
    hide Settling, Consistent, Requested, AllDecided, Changed, CallsAfter, Grants, ChangeOf;
    AlwaysConsistent(c, w, opening, actions);
    AlwaysRequested(c, w, actions);
    if actions != [] {
      AlwaysReady(c, w, opening, actions[..|actions| - 1]);
      var before, a := Run(c, w, actions[..|actions| - 1]), actions[|actions| - 1];
      if a.Advance? && a.call < |before.calls| {
        var pc := before.calls[a.call].pc;
        if pc.Initiating? || pc.Resubmitting? {
          StoredDecided(before.ops, c.mode, pc.id, Taken(c, before.position, a.env));
        }
      }
    }
  }

  lemma ReachedReady(c: Config, w: World, opening: OpeningBalances, end: World, n: nat, gap: nat)
    requires Settling(c.mode) && Ready(w, opening) && Reaches(c, w, end, n, gap)
    ensures Ready(end, opening)
  {
    hide Settling, Ready, Step;
    var actions: seq<Action> :| |actions| <= n && Run(c, w, actions) == end && Steady(actions, gap);
    AlwaysReady(c, w, opening, actions);
  }

  // ---------------------------------------------------------------- single clean steps

  function CleanEnv(gap: nat): Env { Env(Clean, 0, None, gap) }

  ghost predicate At(w: World, k: nat, kind: Kind, pc: Pc) { k < |w.calls| && w.calls[k] == Call(kind, pc) }

  /** A clean step of call `k`. */
  ghost function Move(c: Config, w: World, k: nat, gap: nat): World { Step(c, w, Advance(k, CleanEnv(gap))) }

  lemma MoveEffect(c: Config, w: World, k: nat, gap: nat)
    requires k < |w.calls|
    ensures var call, env := w.calls[k], CleanEnv(gap);
      var next := Move(c, w, k, gap);
      && At(next, k, call.kind, NextPc(c, w, call, env))
      && next.db == Changed(c, w.db, w.clock, Attempted(call, env))
      && next.ops == OpsAfter(c, w.ops, w.position, call.pc, env)
      && next.position == NextPosition(c, w.ops, w.position, call.pc, env)
      && next.clock == w.clock
  {
  }

  lemma ReachesMove(c: Config, w: World, mid: World, n: nat, k: nat, gap: nat)
    requires Reaches(c, w, mid, n, gap)
    ensures Reaches(c, w, Step(c, mid, Advance(k, CleanEnv(gap))), n + 1, gap)
  {
    hide Reaches, Step;
    ReachesNext(c, w, mid, n, Advance(k, CleanEnv(gap)), gap);
  }

  ghost predicate SameProvider(w: World, next: World) { next.ops == w.ops && next.position == w.position }

  /** The provider takes a further operation at the position that `gap` leads to. */
  ghost predicate Accepts(c: Config, w: World, gap: nat) {
    OutcomeForPosition(c.mode, Taken(c, w.position, CleanEnv(gap))).Some?
  }

  /** The provider has an operation for `id`, or takes one. */
  ghost predicate Submittable(c: Config, w: World, id: Id, gap: nat) { id in w.ops || Accepts(c, w, gap) }

  /** A settlement that can be finalized under `token`. */
  ghost predicate Finalizable(db: Db, id: Id, token: int) {
    && id in db.settlements && Open(db.settlements[id].status)
    && id in db.attempts && db.attempts[id].token == token
  }

  lemma FinalizeApplies(db: Db, opening: OpeningBalances, id: Id, token: int, result: Option<Submission>, now: int)
    requires Consistent(db, opening) && Finalizable(db, id, token)
    ensures var tx := FinalizeAttempt(db, id, token, result, now);
      tx.Committed? && tx.value == StatusFor(result) && id in tx.db.settlements && tx.db.settlements[id].status == StatusFor(result)
  {
    hide Consistent, PostEvent;
    FinalizeNeverRefused(db, opening, id, token, result, now);
  }

  /** Finalizing gives the status the result calls for, and returns it. */
  lemma MoveFinalizing(c: Config, w: World, opening: OpeningBalances, k: nat, kind: Kind, id: Id, token: int, result: Option<Submission>, gap: nat)
    requires Consistent(w.db, opening) && At(w, k, kind, Finalizing(id, token, result)) && Finalizable(w.db, id, token)
    ensures var next := Move(c, w, k, gap);
      && id in next.db.settlements && next.db.settlements[id].status == StatusFor(result)
      && SameProvider(w, next) && At(next, k, kind, Returned(id, StatusFor(result)))
  {
    hide Consistent, Finalizable, FinalizeAttempt, NextPc;
    MoveEffect(c, w, k, gap);
    FinalizeApplies(w.db, opening, id, token, result, w.clock);
    FinalizedReturns(c, w, w.calls[k], CleanEnv(gap));
  }

  lemma FinalizedReturns(c: Config, w: World, call: Call, env: Env)
    requires call.pc.Finalizing? && env.fault == Clean
    requires FinalizeAttempt(w.db, call.pc.id, call.pc.token, call.pc.result, w.clock).Committed?
    ensures NextPc(c, w, call, env)
      == Returned(call.pc.id, FinalizeAttempt(w.db, call.pc.id, call.pc.token, call.pc.result, w.clock).value)
  {
    hide FinalizeAttempt;
  }

  /** Submitting stores the operation and takes its answer to finalization. */
  lemma MoveSubmitting(c: Config, w: World, k: nat, kind: Kind, id: Id, token: int, gap: nat)
    requires At(w, k, kind, Initiating(id, token)) || At(w, k, kind, Resubmitting(id, token))
    requires Submittable(c, w, id, gap)
    ensures var next := Move(c, w, k, gap);
      && At(next, k, kind, Finalizing(id, token, Reply(next.ops, id)))
      && next.ops == Stored(w.ops, c.mode, id, Taken(c, w.position, CleanEnv(gap))) && id in next.ops
      && next.position == PositionAfter(c.durable, w.ops, c.mode, id, Taken(c, w.position, CleanEnv(gap)))
      && next.db == w.db && next.clock == w.clock
  {
    MoveEffect(c, w, k, gap);
  }

  // ---------------------------------------------------------------- a payout from its first claim

  /** From a reserved settlement that a `create` is about to claim: claim, submit, finalize. */
  lemma PayoutFromClaiming(c: Config, w: World, opening: OpeningBalances, k: nat, kind: Kind, id: Id, gap: nat)
    returns (end: World)
    requires Consistent(w.db, opening) && At(w, k, kind, Claiming(id))
    requires id in w.db.settlements && w.db.settlements[id].status == RESERVED
    requires Submittable(c, w, id, gap)
    ensures Reaches(c, w, end, 3, gap)
    ensures end.ops == Stored(w.ops, c.mode, id, Taken(c, w.position, CleanEnv(gap))) && id in end.ops
    ensures id in end.db.settlements && end.db.settlements[id].status == StatusFor(Reply(end.ops, id))
    ensures At(end, k, kind, Returned(id, StatusFor(Reply(end.ops, id))))
  {
    hide Stored, Reply, OutcomeForPosition, CleanEnv, Taken;
    var claimed := MoveClaiming(c, w, opening, k, kind, id, gap);
    MoveSubmitting(c, claimed, k, kind, id, 1, gap);
    var submitted := Move(c, claimed, k, gap);
    MoveFinalizing(c, submitted, opening, k, kind, id, 1, Reply(submitted.ops, id), gap);
    end := Move(c, submitted, k, gap);
    hide *;
    ReachesSelf(c, w, gap);
    ReachesMove(c, w, w, 0, k, gap);
    ReachesMove(c, w, claimed, 1, k, gap);
    ReachesMove(c, w, submitted, 2, k, gap);
  }

  lemma ClaimApplies(c: Config, db: Db, opening: OpeningBalances, id: Id, now: int)
    requires Consistent(db, opening) && id in db.settlements && db.settlements[id].status == RESERVED
    ensures var tx := ClaimReserved(db, id, now, c.leaseTime);
      tx.Committed? && tx.value == Some(1) && Finalizable(tx.db, id, 1)
  {
    hide Balanced, Journaled, UniqueKeys;
  }

  lemma MoveClaiming(c: Config, w: World, opening: OpeningBalances, k: nat, kind: Kind, id: Id, gap: nat) returns (next: World)
    requires Consistent(w.db, opening) && At(w, k, kind, Claiming(id))
    requires id in w.db.settlements && w.db.settlements[id].status == RESERVED
    ensures next == Step(c, w, Advance(k, CleanEnv(gap)))
    ensures Consistent(next.db, opening) && SameProvider(w, next)
    ensures At(next, k, kind, Initiating(id, 1)) && Finalizable(next.db, id, 1)
  {
    hide Consistent, Finalizable, ClaimReserved, Step;
    next := Move(c, w, k, gap);
    MoveEffect(c, w, k, gap);
    ClaimApplies(c, w.db, opening, id, w.clock);
    ChangedConsistent(c, w.db, opening, w.clock, FirstClaim(id));
  }

  // ---------------------------------------------------------------- replaying a reserved settlement

  lemma RowByKey(db: Db, opening: OpeningBalances, id: Id, r: Request)
    requires Consistent(db, opening) && Belongs(db, id, r)
    ensures FindRow(db, r.owner, r.key) == Some(id)
  {
    hide Balanced, Journaled, Tracked;
    assert KeyTaken(db, r.owner, r.key);
    FoundRow(db, r.owner, r.key);
  }

  lemma Started(c: Config, w: World, r: Request) returns (next: World)
    ensures next == Step(c, w, StartCreate(r)) && At(next, |w.calls|, Create(r), Finding)
    ensures next.db == w.db && SameProvider(w, next) && next.clock == w.clock
  {
    next := Step(c, w, StartCreate(r));
  }

  lemma ReplayApplies(c: Config, w: World, opening: OpeningBalances, id: Id, r: Request, k: nat, gap: nat)
    requires Consistent(w.db, opening) && Belongs(w.db, id, r) && w.db.settlements[id].status == RESERVED
    requires At(w, k, Create(r), Finding)
    ensures var next := Move(c, w, k, gap); At(next, k, Create(r), Claiming(id)) && next.db == w.db && SameProvider(w, next)
  {
    hide Consistent;
    RowByKey(w.db, opening, id, r);
    MoveEffect(c, w, k, gap);
  }

  /** A replayed `create` finds the reserved row and goes on to claim it. */
  lemma ReplayReserved(c: Config, w: World, opening: OpeningBalances, id: Id, r: Request, gap: nat) returns (next: World, k: nat)
    requires Consistent(w.db, opening) && Belongs(w.db, id, r) && w.db.settlements[id].status == RESERVED
    ensures Reaches(c, w, next, 2, gap) && At(next, k, Create(r), Claiming(id))
    ensures next.db == w.db && SameProvider(w, next)
  {
    k := |w.calls|;
    var started := Started(c, w, r);
    next := Move(c, started, k, gap);
    ReplayApplies(c, started, opening, id, r, k, gap);
    hide *;
    ReachesSelf(c, w, gap);
    ReachesNext(c, w, w, 0, StartCreate(r), gap);
    ReachesMove(c, w, started, 1, k, gap);
  }

  // ---------------------------------------------------------------- reconciling a settlement in payout

  /** Let the lease run out, and start a manual reconciliation. */
  lemma StartAfterLease(c: Config, w: World, id: Id, lease: int, gap: nat) returns (started: World, k: nat)
    ensures Reaches(c, w, started, 2, gap)
    ensures At(started, k, Reconcile(true), Checking(id))
    ensures started.db == w.db && SameProvider(w, started) && started.clock >= lease
  {
    var wait := if lease > w.clock then lease - w.clock else 0;
    var later := Step(c, w, Tick(wait));
    assert later.db == w.db && SameProvider(w, later) && later.clock >= lease;
    k := |later.calls|;
    started := Step(c, later, StartReconcile(id));
    hide *;
    ReachesSelf(c, w, gap);
    ReachesNext(c, w, w, 0, Tick(wait), gap);
    ReachesNext(c, w, later, 1, StartReconcile(id), gap);
  }

  lemma MoveChecking(c: Config, w: World, k: nat, kind: Kind, id: Id, gap: nat)
    requires At(w, k, kind, Checking(id)) && id in w.db.settlements && InPayout(w.db.settlements[id].status)
    ensures var next := Move(c, w, k, gap);
      At(next, k, kind, Reclaiming(id)) && next.db == w.db && SameProvider(w, next) && next.clock == w.clock
  {
    MoveEffect(c, w, k, gap);
  }

  lemma MoveReclaiming(c: Config, w: World, opening: OpeningBalances, k: nat, kind: Kind, id: Id, gap: nat) returns (token: int)
    requires At(w, k, kind, Reclaiming(id)) && Consistent(w.db, opening)
    requires id in w.db.settlements && InPayout(w.db.settlements[id].status)
    requires id in w.db.attempts && w.db.attempts[id].lease <= w.clock
    ensures var next := Move(c, w, k, gap);
      && At(next, k, kind, LookingUp(id, token))
      && Consistent(next.db, opening) && Finalizable(next.db, id, token) && SameProvider(w, next)
  {
    hide Consistent, Finalizable, ClaimForReconciliation, Step;
    token := w.db.attempts[id].token + 1;
    MoveEffect(c, w, k, gap);
    ReclaimApplies(c, w.db, id, w.clock);
    ChangedConsistent(c, w.db, opening, w.clock, LaterClaim(id));
  }

  lemma PayoutHasAttempt(db: Db, opening: OpeningBalances, id: Id)
    requires Consistent(db, opening) && id in db.settlements && InPayout(db.settlements[id].status)
    ensures id in db.attempts
  {
    hide Balanced, Journaled, UniqueKeys;
  }

  /** After the lease has run out, a manual reconciliation claims the attempt. */
  lemma ClaimAfterLease(c: Config, w: World, opening: OpeningBalances, id: Id, gap: nat) returns (next: World, k: nat, token: int)
    requires Consistent(w.db, opening) && id in w.db.settlements && InPayout(w.db.settlements[id].status)
    ensures Reaches(c, w, next, 4, gap)
    ensures At(next, k, Reconcile(true), LookingUp(id, token))
    ensures Consistent(next.db, opening) && Finalizable(next.db, id, token) && SameProvider(w, next)
  {
    hide Consistent, Step, Reaches, Finalizable, At;
    PayoutHasAttempt(w.db, opening, id);
    var started: World;
    started, k := StartAfterLease(c, w, id, w.db.attempts[id].lease, gap);
    MoveChecking(c, started, k, Reconcile(true), id, gap);
    var checked := Move(c, started, k, gap);
    token := MoveReclaiming(c, checked, opening, k, Reconcile(true), id, gap);
    next := Move(c, checked, k, gap);
    ReachesMove(c, w, started, 2, k, gap);
    ReachesMove(c, w, checked, 3, k, gap);
  }

  lemma ReclaimApplies(c: Config, db: Db, id: Id, now: int)
    requires id in db.settlements && InPayout(db.settlements[id].status) && id in db.attempts && db.attempts[id].lease <= now
    ensures var tx := ClaimForReconciliation(db, id, false, now, c.leaseTime);
      && tx.Committed? && tx.value == Some(db.attempts[id].token + 1) && Finalizable(tx.db, id, db.attempts[id].token + 1)
  {
  }

  ghost predicate Ended(w: World, id: Id) { id in w.db.settlements && Terminal(w.db.settlements[id].status) }

  ghost predicate Unended(w: World, id: Id) { id in w.db.settlements && InPayout(w.db.settlements[id].status) }

  lemma LookedUpDecided(ops: Operations, id: Id)
    requires id in ops && Decided(ops[id])
    ensures LookupOf(ops, id) == Paid || LookupOf(ops, id) == Unpaid
  {
  }

  /** A looked-up operation with a definite authority ends the settlement. */
  lemma EndFromLookup(c: Config, w: World, opening: OpeningBalances, k: nat, kind: Kind, id: Id, token: int, gap: nat) returns (end: World)
    requires Consistent(w.db, opening) && Finalizable(w.db, id, token) && At(w, k, kind, LookingUp(id, token))
    requires id in w.ops && Decided(w.ops[id])
    ensures Reaches(c, w, end, 2, gap) && Ended(end, id)
    ensures At(end, k, kind, Returned(id, if w.ops[id].authority == Paid then SUCCESS else FAILED))
  {
    hide Consistent, Step, Finalizable, Decided, Reaches;
    LookedUpDecided(w.ops, id);
    MoveEffect(c, w, k, gap);
    var found := Move(c, w, k, gap);
    var result := Some(if LookupOf(w.ops, id) == Paid then SubmittedPaid else SubmittedUnpaid);
    assert At(found, k, kind, Finalizing(id, token, result));
    MoveFinalizing(c, found, opening, k, kind, id, token, result, gap);
    end := Move(c, found, k, gap);
    ReachesSelf(c, w, gap);
    ReachesMove(c, w, w, 0, k, gap);
    ReachesMove(c, w, found, 1, k, gap);
  }

  /** Where the provider has no operation, it is submitted once more and finalized with what it answers. */
  lemma SubmitFromLookup(c: Config, w: World, opening: OpeningBalances, k: nat, kind: Kind, id: Id, token: int, gap: nat) returns (end: World)
    requires Consistent(w.db, opening) && Finalizable(w.db, id, token) && At(w, k, kind, LookingUp(id, token))
    requires LookupOf(w.ops, id) == NotFound && Submittable(c, w, id, gap)
    ensures Reaches(c, w, end, 3, gap)
    ensures end.ops == Stored(w.ops, c.mode, id, Taken(c, w.position, CleanEnv(gap))) && id in end.ops
    ensures id in end.db.settlements && end.db.settlements[id].status == StatusFor(Reply(end.ops, id))
    ensures At(end, k, kind, Returned(id, StatusFor(Reply(end.ops, id))))
  {
    hide Consistent, Step, Finalizable, Reaches, Stored, OutcomeForPosition, Reply, Taken, LookupOf;
    MoveEffect(c, w, k, gap);
    var missing := Move(c, w, k, gap);
    assert At(missing, k, kind, Resubmitting(id, token));
    MoveSubmitting(c, missing, k, kind, id, token, gap);
    var submitted := Move(c, missing, k, gap);
    MoveFinalizing(c, submitted, opening, k, kind, id, token, Reply(submitted.ops, id), gap);
    end := Move(c, submitted, k, gap);
    ReachesSelf(c, w, gap);
    ReachesMove(c, w, w, 0, k, gap);
    ReachesMove(c, w, missing, 1, k, gap);
    ReachesMove(c, w, submitted, 2, k, gap);
  }

  lemma ReachedConsistent(c: Config, w: World, opening: OpeningBalances, end: World, n: nat, gap: nat)
    requires Consistent(w.db, opening) && Reaches(c, w, end, n, gap)
    ensures Consistent(end.db, opening)
  {
    hide Consistent, Step;
    var actions: seq<Action> :| |actions| <= n && Run(c, w, actions) == end && Steady(actions, gap);
    AlwaysConsistent(c, w, opening, actions);
  }

  lemma DecidedIn(w: World, opening: OpeningBalances, id: Id)
    requires Ready(w, opening) && id in w.ops
    ensures Consistent(w.db, opening) && Decided(w.ops[id])
  {
    hide Consistent, Requested;
  }

  /** With a decided operation stored, one reconciliation ends the settlement. */
  lemma ReconcileKnown(c: Config, w: World, opening: OpeningBalances, id: Id, gap: nat) returns (end: World)
    requires Consistent(w.db, opening) && Unended(w, id) && id in w.ops && Decided(w.ops[id])
    ensures Reaches(c, w, end, 6, gap) && Ended(end, id)
  {
    hide Consistent, Decided, Step, Finalizable, Reaches, At, Ended;
    var claimed, k, token := ClaimAfterLease(c, w, opening, id, gap);
    end := EndFromLookup(c, claimed, opening, k, Reconcile(true), id, token, gap);
    ReachesTrans(c, w, claimed, end, 4, 2, gap);
  }

  /** Without one, a first reconciliation submits it and a second ends it at the latest. */
  lemma ReconcileUnknown(c: Config, w: World, opening: OpeningBalances, id: Id, gap: nat) returns (end: World)
    requires Settling(c.mode) && Ready(w, opening) && Unended(w, id) && id !in w.ops && Accepts(c, w, gap)
    ensures Reaches(c, w, end, 13, gap) && Ended(end, id)
  {
    hide Settling, Consistent, Requested, AllDecided, Step, Finalizable, Reaches, At, Stored, Reply, StatusFor, Taken, Decided;
    var claimed, k, token := ClaimAfterLease(c, w, opening, id, gap);
    var mid := SubmitFromLookup(c, claimed, opening, k, Reconcile(true), id, token, gap);
    AfterSubmission(mid, id, Reply(mid.ops, id));
    ReachesTrans(c, w, claimed, mid, 4, 3, gap);
    if Ended(mid, id) {
      end := mid;
      ReachesWithin(c, w, end, 7, 13, gap);
    } else {
      ReachedReady(c, w, opening, mid, 7, gap);
      DecidedIn(mid, opening, id);
      end := ReconcileKnown(c, mid, opening, id, gap);
      ReachesTrans(c, w, mid, end, 7, 6, gap);
    }
  }

  lemma ReachesWithin(c: Config, w: World, end: World, m: nat, n: nat, gap: nat)
    requires Reaches(c, w, end, m, gap) && m <= n
    ensures Reaches(c, w, end, n, gap)
  {
    hide Run;
  }

  lemma AfterSubmission(w: World, id: Id, result: Option<Submission>)
    requires id in w.db.settlements && w.db.settlements[id].status == StatusFor(result)
    ensures Ended(w, id) || Unended(w, id)
  {
  }

  /** A reserved settlement is replayed, paid out, and reconciled at most once. */
  lemma FinishReserved(c: Config, w: World, opening: OpeningBalances, id: Id, gap: nat) returns (end: World)
    requires Settling(c.mode) && Ready(w, opening) && id in w.db.settlements && w.db.settlements[id].status == RESERVED
    requires Submittable(c, w, id, gap)
    ensures Reaches(c, w, end, 11, gap) && Ended(end, id)
  {
    hide Settling, Consistent, AllDecided, Step, Finalizable, Reaches, At, Ended, Unended, Stored, OutcomeForPosition, Reply, Belongs, CleanEnv, Taken;
    var r: Request :| Belongs(w.db, id, r);
    var replayed, k := ReplayReserved(c, w, opening, id, r, gap);
    var mid := PayoutFromClaiming(c, replayed, opening, k, Create(r), id, gap);
    ReachesTrans(c, w, replayed, mid, 2, 3, gap);
    AfterSubmission(mid, id, Reply(mid.ops, id));
    if Ended(mid, id) {
      end := mid;
      ReachesWithin(c, w, end, 5, 11, gap);
    } else {
      ReachedReady(c, w, opening, mid, 5, gap);
      DecidedIn(mid, opening, id);
      end := ReconcileKnown(c, mid, opening, id, gap);
      ReachesTrans(c, w, mid, end, 5, 6, gap);
    }
  }

  lemma InitialReady(w: World, opening: OpeningBalances)
    requires Initial(w, opening)
    ensures Ready(w, opening)
  {
    hide Consistent;
  }

  /** From every reachable state, whatever calls have stalled, a settlement that has an operation, or for which the
      provider takes one, can be ended within thirteen steps, however many positions its sequence skips, when the
      provider's authority is always PAID or UNPAID once stored. */
  lemma EverySettlementCanEnd(c: Config, w: World, opening: OpeningBalances, actions: seq<Action>, id: Id, gap: nat)
    returns (end: World)
    requires Settling(c.mode) && Initial(w, opening)
    requires id in Run(c, w, actions).db.settlements && Submittable(c, Run(c, w, actions), id, gap)
    ensures Reaches(c, Run(c, w, actions), end, 13, gap) && Ended(end, id)
  {
    hide Settling, Initial, Consistent, Requested, AllDecided, Step, Reaches, Run;
    InitialReady(w, opening);
    AlwaysReady(c, w, opening, actions);
    var now := Run(c, w, actions);
    if Terminal(now.db.settlements[id].status) {
      end := now;
      ReachesSelf(c, now, gap);
      ReachesWithin(c, now, end, 0, 13, gap);
    } else if now.db.settlements[id].status == RESERVED {
      end := FinishReserved(c, now, opening, id, gap);
      ReachesWithin(c, now, end, 11, 13, gap);
    } else if id in now.ops {
      DecidedIn(now, opening, id);
      end := ReconcileKnown(c, now, opening, id, gap);
      ReachesWithin(c, now, end, 6, 13, gap);
    } else {
      end := ReconcileUnknown(c, now, opening, id, gap);
    }
  }

  // ---------------------------------------------------------------- when the provider takes no more operations

  /** The load provider takes a thousand positions, every other configuration any number. */
  const LOAD_LIMIT: nat := 1000

  ghost predicate Exhausted(c: Config, w: World) { c.mode.loadMode && w.position >= LOAD_LIMIT }

  lemma AcceptsIff(c: Config, w: World, gap: nat)
    ensures Accepts(c, w, gap) <==> !(c.mode.loadMode && Taken(c, w.position, CleanEnv(gap)) >= LOAD_LIMIT)
  {
  }

  /** An exhausted provider stays exhausted and stores nothing more. */
  lemma {:induction false} StaysExhausted(c: Config, w: World, more: seq<Action>)
    requires Exhausted(c, w)
    ensures Exhausted(c, Run(c, w, more)) && Run(c, w, more).ops == w.ops
  {
    hide Changed, CallsAfter, Grants, ChangeOf;
    if more != [] {
      StaysExhausted(c, w, more[..|more| - 1]);
    }
  }

  lemma LoadIsDefinitive(m: Mode)
    requires m.loadMode
    ensures Definitive(m) && Settling(m)
  {
    DefinitiveIff(m);
    SettlingIff(m);
  }

  lemma EndedHasOperation(w: World, id: Id)
    requires Agreed(w) && Ended(w, id)
    ensures id in w.ops
  {
    assert StatusAgrees(w.ops, id, w.db.settlements[id].status);
  }

  /** Once the load provider is exhausted, a settlement without an operation never ends, whatever anybody does. */
  lemma ExhaustedNeverEnds(c: Config, w: World, opening: OpeningBalances, actions: seq<Action>, more: seq<Action>, id: Id)
    requires Initial(w, opening) && Exhausted(c, Run(c, w, actions)) && id !in Run(c, w, actions).ops
    ensures !Ended(Run(c, Run(c, w, actions), more), id)
  {
    hide Run, Definitive, Settling, Ended, Agreed;
    LoadIsDefinitive(c.mode);
    InitialFacts(w, opening);
    RunConcat(c, w, actions, more);
    AlwaysAgreed(c, w, actions + more);
    StaysExhausted(c, Run(c, w, actions), more);
    if Ended(Run(c, Run(c, w, actions), more), id) { EndedHasOperation(Run(c, Run(c, w, actions), more), id); }
  }

  lemma ActionsOf(c: Config, w: World, end: World, n: nat, gap: nat) returns (actions: seq<Action>)
    requires Reaches(c, w, end, n, gap)
    ensures Run(c, w, actions) == end
  {
    hide Run;
    actions :| |actions| <= n && Run(c, w, actions) == end && Steady(actions, gap);
  }

  /** Exactly when a settlement of a reachable state can still end: unless the provider is the load provider, has no
      operation for it, and has handed out its thousand positions. */
  lemma CanEndIff(c: Config, w: World, opening: OpeningBalances, actions: seq<Action>, id: Id)
    requires Settling(c.mode) && Initial(w, opening) && id in Run(c, w, actions).db.settlements
    ensures var now := Run(c, w, actions);
      (exists more: seq<Action> :: Ended(Run(c, now, more), id))
      <==> (id in now.ops || !c.mode.loadMode || now.position < LOAD_LIMIT)
  {
    hide Run, Ended, Settling, Initial, OutcomeForPosition, Reaches;
    var now := Run(c, w, actions);
    if id in now.ops || !c.mode.loadMode || now.position < LOAD_LIMIT {
      AcceptsIff(c, now, 0);
      var end := EverySettlementCanEnd(c, w, opening, actions, id, 0);
      var more := ActionsOf(c, now, end, 13, 0);
      assert Ended(Run(c, now, more), id);
    } else {
      forall more: seq<Action> ensures !Ended(Run(c, now, more), id) {
        ExhaustedNeverEnds(c, w, opening, actions, more, id);
      }
    }
  }

  /** In memory the position is the number of operations; a database sequence is never behind it. */
  lemma {:induction false} PositionsCountOperations(c: Config, w: World, actions: seq<Action>)
    requires w.position >= |w.ops| && (!c.durable ==> w.position == |w.ops|)
    ensures var now := Run(c, w, actions); now.position >= |now.ops| && (!c.durable ==> now.position == |now.ops|)
  {
    hide Changed, CallsAfter, Grants, ChangeOf, OutcomeForPosition;
    if actions != [] {
      PositionsCountOperations(c, w, actions[..|actions| - 1]);
    }
  }
}
