/** Work that arrives late: exactly when a result is applied, and a result applied after its lease has run out. */
module LateWork {
  import opened Options
  import opened Routing
  import opened Ledger
  import opened Provider
  import opened Service
  import opened Accounting
  import opened Protocol
  import opened BatchFairness
  import opened Progress
  import opened Exhaustion

  /** The event that a result calls for, if any. */
  function EventFor(result: Option<Submission>): Option<Event> {
    match StatusFor(result)
    case SUCCESS => Some(Consume)
    case FAILED => Some(Release)
    case _ => None
  }

  /** The result is in the tables: as the status, as the last outcome, and as a new journal if it calls for one. */
  ghost predicate Applied(before: Db, after: Db, id: Id, result: Option<Submission>) {
    && id in before.settlements && id in after.attempts
    && after.settlements == before.settlements[id := before.settlements[id].(status := StatusFor(result))]
    && after.attempts[id].lastOutcome == Some(ObservedOf(result))
    && (if EventFor(result).None? then after.books == before.books
        else HasEvent(after.books.journals, id, EventFor(result).value) && !HasEvent(before.books.journals, id, EventFor(result).value))
  }

  lemma EntryIsApplied(db: Db, opening: OpeningBalances, id: Id, token: int, result: Option<Submission>, now: int)
    requires Consistent(db, opening) && Finalizable(db, id, token) && EventFor(result).Some?
    requires FinalizeAttempt(db, id, token, result, now).Committed?
    ensures Applied(db, FinalizeAttempt(db, id, token, result, now).db, id, result)
  {
    hide Consistent, HasEvent, PostEvent;
    var s, event := db.settlements[id], EventFor(result).value;
    EventIsNew(db, opening, id, event);
    EventIsWritten(db.books, id, event, s.owner, s.amount);
  }

  lemma OpenIsApplied(db: Db, opening: OpeningBalances, id: Id, token: int, result: Option<Submission>, now: int)
    requires Consistent(db, opening) && Finalizable(db, id, token)
    ensures var tx := FinalizeAttempt(db, id, token, result, now); tx.Committed? && Applied(db, tx.db, id, result)
  {
    hide Consistent, FinalizeAttempt, Applied;
    CurrentIsCommitted(db, opening, id, token, result, now);
    if EventFor(result).Some? {
      EntryIsApplied(db, opening, id, token, result, now);
    } else {
      WaitingIsApplied(db, id, token, result, now);
    }
  }

  lemma CurrentIsCommitted(db: Db, opening: OpeningBalances, id: Id, token: int, result: Option<Submission>, now: int)
    requires Consistent(db, opening) && Finalizable(db, id, token)
    ensures FinalizeAttempt(db, id, token, result, now).Committed?
  {
    hide Consistent, PostEvent;
    FinalizeNeverRefused(db, opening, id, token, result, now);
  }

  lemma WaitingIsApplied(db: Db, id: Id, token: int, result: Option<Submission>, now: int)
    requires Finalizable(db, id, token) && EventFor(result).None?
    ensures Applied(db, FinalizeAttempt(db, id, token, result, now).db, id, result)
  {
    hide PostEvent, HasEvent;
  }

  lemma EventIsNew(db: Db, opening: OpeningBalances, id: Id, event: Event)
    requires Consistent(db, opening) && id in db.settlements && Open(db.settlements[id].status)
    requires event == Consume || event == Release
    ensures !HasEvent(db.books.journals, id, event)
  {
    hide Balanced, Tracked, UniqueKeys, HasEvent, UniqueEvents, WellPosted;
    assert !Expected(db.settlements, id, event);
  }

  lemma EventIsWritten(b: Books, id: Id, event: Event, owner: string, amount: int)
    requires event != Opening && PostEvent(b, id, event, owner, amount).Entered?
    ensures HasEvent(PostEvent(b, id, event, owner, amount).books.journals, id, event)
  {
    assert PostEvent(b, id, event, owner, amount).books.journals[|b.journals|] == Journal(Some(id), event, true);
  }

  /** A result is applied if and only if its token is the row's and the settlement has not ended. Neither the clock nor
      the lease matters, and a result that is not applied changes nothing. */
  lemma AppliedIffTokenIsCurrent(db: Db, opening: OpeningBalances, id: Id, token: int, result: Option<Submission>, now: int)
    requires Consistent(db, opening) && id in db.settlements && id in db.attempts
    ensures var tx := FinalizeAttempt(db, id, token, result, now);
      && (tx.Committed? && Applied(db, tx.db, id, result) <==> token == db.attempts[id].token && Open(db.settlements[id].status))
      && (!(tx.Committed? && Applied(db, tx.db, id, result)) ==> DbOf(db, tx) == db)
  {
    hide Consistent, PostEvent, HasEvent;
    if token == db.attempts[id].token && Open(db.settlements[id].status) {
      OpenIsApplied(db, opening, id, token, result, now);
    }
  }

  /** Waiting until a lease has run out. */
  lemma Wait(c: Config, w: World, lease: int, gap: nat) returns (later: World)
    ensures Reaches(c, w, later, 1, gap) && later == w.(clock := later.clock)
    ensures later.clock > lease
  {
    var wait := if lease >= w.clock then lease - w.clock + 1 else 0;
    later := Step(c, w, Tick(wait));
    assert later.issued == w.issued;
    hide *;
    ReachesSelf(c, w, gap);
    ReachesNext(c, w, w, 0, Tick(wait), gap);
  }

  lemma FinalizingStep(c: Config, w: World, k: nat, kind: Kind, id: Id, token: int, result: Option<Submission>)
    requires At(w, k, kind, Finalizing(id, token, result))
    ensures Step(c, w, Advance(k, CleanEnv(0))).db == DbOf(w.db, FinalizeAttempt(w.db, id, token, result, w.clock))
  {
    hide FinalizeAttempt;
  }

  lemma FirstReply(c: Config, ops: Operations, id: Id)
    requires id !in ops
    ensures OutcomeForPosition(c.mode, 0).Some?
    ensures !Scripted(c.mode) ==> Reply(Stored(ops, c.mode, id, 0), id) == Some(SubmittedPaid)
  {
  }

  /** A funded request, run until its call holds the provider's answer. */
  lemma CreateToAnswer(c: Config, w: World, opening: OpeningBalances, id: Id, r: Request, q: RouteQuote)
    returns (next: World, k: nat)
    requires Initial(w, opening) && Fundable(w.db, id, r, q)
    ensures Reaches(c, w, next, 5, 0) && At(next, k, Create(r), Finalizing(id, 1, Reply(next.ops, id)))
    ensures Consistent(next.db, opening) && Finalizable(next.db, id, 1)
    ensures !Scripted(c.mode) ==> Reply(next.ops, id) == Some(SubmittedPaid)
  {
    assert Consistent(w.db, opening) && w.ops == map[] && w.position == 0;
    hide Initial, Consistent, Reaches, At, Fundable, NewSettlement, Step, Finalizable, OutcomeForPosition, Stored, Reply;
    FirstReply(c, w.ops, id);
    var claiming: World;
    claiming, k := CreateToClaiming(c, w, opening, id, r, q, 0);
    NewIsReserved(r, q);
    var claimed := MoveClaiming(c, claiming, opening, k, Create(r), id, 0);
    MoveSubmitting(c, claimed, k, Create(r), id, 1, 0);
    next := Move(c, claimed, k, 0);
    ReachesMove(c, w, claiming, 3, k, 0);
    ReachesMove(c, w, claimed, 4, k, 0);
  }

  /** A reachable state where a call comes back with its result after its lease has run out, and the result is applied:
      without a script the settlement is paid out. */
  lemma ExpiredLeaseStillApplies(c: Config, w: World, opening: OpeningBalances, id: Id, r: Request, q: RouteQuote)
    returns (late: World, k: nat)
    requires Initial(w, opening) && Fundable(w.db, id, r, q)
    ensures Reaches(c, w, late, 6, 0) && id in late.db.attempts && late.db.attempts[id].lease < late.clock
    ensures At(late, k, Create(r), Finalizing(id, 1, Reply(late.ops, id)))
    ensures var end := Step(c, late, Advance(k, CleanEnv(0)));
      && Applied(late.db, end.db, id, Reply(late.ops, id))
      && (!Scripted(c.mode) ==> id in end.db.settlements && end.db.settlements[id].status == SUCCESS)
  {
    hide Initial, Consistent, Reaches, At, Fundable, Step, Finalizable, Applied, Reply, FinalizeAttempt;
    var submitted: World;
    submitted, k := CreateToAnswer(c, w, opening, id, r, q);
    IsFinalizable(submitted.db, id, 1);
    late := Wait(c, submitted, submitted.db.attempts[id].lease, 0);
    var result := Reply(late.ops, id);
    StillAt(submitted, late, k, Create(r), Finalizing(id, 1, result));
    FinalizingStep(c, late, k, Create(r), id, 1, result);
    OpenIsApplied(late.db, opening, id, 1, result, late.clock);
    AppliedStatus(late.db, Step(c, late, Advance(k, CleanEnv(0))).db, id, result);
    ReachesTrans(c, w, submitted, late, 5, 1, 0);
  }

  lemma AppliedStatus(before: Db, after: Db, id: Id, result: Option<Submission>)
    requires Applied(before, after, id, result)
    ensures id in after.settlements && after.settlements[id].status == StatusFor(result)
  {
  }

  lemma NewIsReserved(r: Request, q: RouteQuote)
    ensures NewSettlement(r, q).status == RESERVED
  {
  }

  lemma IsFinalizable(db: Db, id: Id, token: int)
    requires Finalizable(db, id, token)
    ensures id in db.settlements && id in db.attempts && db.attempts[id].token == token
  {
  }

  lemma StillAt(w: World, later: World, k: nat, kind: Kind, pc: Pc)
    requires At(w, k, kind, pc) && later.calls == w.calls
    ensures At(later, k, kind, pc)
  {
  }

  // ---------------------------------------------------------------- a claim abandoned by the background batch

  lemma FirstClaimLeaves(db: Db, id: Id, now: int, leaseTime: int)
    requires id in db.settlements && db.settlements[id].status == RESERVED && id !in db.attempts
    ensures ClaimReserved(db, id, now, leaseTime).Committed?
    ensures var after := ClaimReserved(db, id, now, leaseTime).db;
      && after.settlements.Keys == db.settlements.Keys && after.settlements[id].status == PAYOUT_IN_PROGRESS
      && id in after.attempts && after.attempts[id].state == Submitting
  {
  }

  /** A background pass over a table whose only row is overdue claims it. */
  lemma OnlyRowClaimed(c: Config, w: World, id: Id)
    requires w.db.settlements.Keys == {id} && InPayout(w.db.settlements[id].status)
    requires id in w.db.attempts && w.db.attempts[id].state == Submitting && w.db.attempts[id].lease < w.clock
    ensures IsBatch(w.db, w.clock, 1, {}, [id])
    ensures var after := Step(c, w, Batch(1, {}, [id])).db;
      after.settlements == w.db.settlements && id in after.attempts && after.attempts[id].state == Claimed
  {
    assert Due(w.db, id, w.clock);
    ClaimRowsFrame(w.db, [id], w.clock, c.leaseTime);
    RowClaimed(w.db, [id], w.clock, c.leaseTime, id);
  }

  lemma ReservedHasNoAttempt(db: Db, opening: OpeningBalances, id: Id)
    requires Consistent(db, opening) && id in db.settlements && db.settlements[id].status == RESERVED
    ensures id !in db.attempts
  {
    hide Balanced, Journaled, UniqueKeys;
  }

  lemma FirstClaimStep(c: Config, w: World, opening: OpeningBalances, k: nat, kind: Kind, id: Id)
    requires Consistent(w.db, opening) && At(w, k, kind, Claiming(id))
    requires id in w.db.settlements && w.db.settlements[id].status == RESERVED
    ensures var after := Step(c, w, Advance(k, CleanEnv(0))).db;
      && after.settlements.Keys == w.db.settlements.Keys && after.settlements[id].status == PAYOUT_IN_PROGRESS
      && id in after.attempts && after.attempts[id].state == Submitting
  {
    hide Consistent, Step, CleanEnv, ClaimReserved;
    ReservedHasNoAttempt(w.db, opening, id);
    ClaimingChange(c, w, k, kind, id);
    FirstClaimLeaves(w.db, id, w.clock, c.leaseTime);
  }

  lemma NoSettlementYet(w: World, opening: OpeningBalances)
    requires Initial(w, opening)
    ensures Consistent(w.db, opening) && w.db.settlements == map[]
  {
    hide Consistent;
  }

  /** A funded request from the first state, claimed by its `create`, which then dies. */
  lemma CreateToFirstClaim(c: Config, w: World, opening: OpeningBalances, id: Id, r: Request, q: RouteQuote)
    returns (next: World)
    requires Initial(w, opening) && Fundable(w.db, id, r, q)
    ensures Reaches(c, w, next, 4, 0) && next.db.settlements.Keys == {id}
    ensures InPayout(next.db.settlements[id].status) && id in next.db.attempts && next.db.attempts[id].state == Submitting
  {
    hide Initial, Consistent, Reaches, At, Fundable, NewSettlement, Step, CleanEnv, InsertReserved;
    NoSettlementYet(w, opening);
    var claiming, k := CreateToClaiming(c, w, opening, id, r, q, 0);
    NewIsReserved(r, q);
    FirstClaimStep(c, claiming, opening, k, Create(r), id);
    next := Move(c, claiming, k, 0);
    ReachesMove(c, w, claiming, 3, k, 0);
  }

  /** A reachable state with a claim of the background batch that nobody is working on, overdue and still in payout.
      In every later run it stays as it is until the row is claimed by hand or the lost result arrives after all. */
  lemma AbandonedClaimReachable(c: Config, w: World, opening: OpeningBalances, id: Id, r: Request, q: RouteQuote)
    returns (left: World)
    requires Initial(w, opening) && Fundable(w.db, id, r, q)
    ensures Reaches(c, w, left, 7, 0)
    ensures id in left.db.settlements && InPayout(left.db.settlements[id].status)
    ensures id in left.db.attempts && left.db.attempts[id].state == Claimed && left.db.attempts[id].lease < left.clock
    ensures forall more: seq<Action> | Unattended(c, left, more, id, left.db.attempts[id].token) ::
      Untouched(left.db, Run(c, left, more).db, id)
  {
    hide Initial, Reaches, Fundable, Step, Run, Unattended, IsBatch;
    var claimed := CreateToFirstClaim(c, w, opening, id, r, q);
    var due := Wait(c, claimed, claimed.db.attempts[id].lease, 0);
    OnlyRowClaimed(c, due, id);
    var picked := Step(c, due, Batch(1, {}, [id]));
    left := Wait(c, picked, picked.db.attempts[id].lease, 0);
    ReachesTrans(c, w, claimed, due, 4, 1, 0);
    ReachesNext(c, w, due, 5, Batch(1, {}, [id]), 0);
    ReachesTrans(c, w, picked, left, 6, 1, 0);
    forall more: seq<Action> | Unattended(c, left, more, id, left.db.attempts[id].token)
      ensures Untouched(left.db, Run(c, left, more).db, id)
    {
      AbandonedClaimStays(c, left, more, id);
    }
  }
}
