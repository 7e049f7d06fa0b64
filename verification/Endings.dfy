/** Exactly when a settlement of a reachable state can still end, for every configuration of the provider. */
module Endings {
  import opened Options
  import opened Routing
  import opened Fingerprint
  import opened Ledger
  import opened Provider
  import opened Service
  import opened Accounting
  import opened Protocol
  import opened Fencing
  import opened IdempotentCreate
  import opened Agreement
  import opened Progress
  import opened Exhaustion
  import opened LateWork

  // ---------------------------------------------------------------- what an operation is good for

  /** A submission of this operation answers paid or unpaid. */
  ghost predicate Definite(op: Operation) { !op.timesOut && (op.submission == Some(SubmittedPaid) || op.submission == Some(SubmittedUnpaid)) }

  /** A reconciliation that finds this operation ends the settlement; where its authority is NOT_FOUND, by submitting again. */
  ghost predicate Settles(op: Operation) { Decided(op) || (op.authority == NotFound && Definite(op)) }

  /** A settlement that gets this operation can end by it. */
  ghost predicate Hopeful(op: Operation) { Decided(op) || Definite(op) }

  ghost predicate HopefulAt(m: Mode, position: nat) {
    OutcomeForPosition(m, position).Some? && Hopeful(OutcomeForPosition(m, position).value)
  }

  /** Call `k` works under the row's token and has, or is about to get, a definite answer. */
  ghost predicate Delivers(w: World, k: nat, id: Id) {
    && k < |w.calls| && id in w.db.attempts && Held(w.calls[k].pc) == Some((id, w.db.attempts[id].token))
    && HasAnswer(w.ops, id, w.calls[k].pc)
  }

  ghost predicate HasAnswer(ops: Operations, id: Id, pc: Pc) {
    || (pc.Finalizing? && Terminal(StatusFor(pc.result)))
    || ((pc.Initiating? || pc.Resubmitting?) && id in ops && Definite(ops[id]))
  }

  /** The settlement has ended, or somebody has its answer, or the operation stored for it, or one that the provider
      may still store, can end it. */
  ghost predicate CanEnd(c: Config, w: World, id: Id)
    requires id in w.db.settlements
  {
    || Terminal(w.db.settlements[id].status)
    || (exists k: nat :: Delivers(w, k, id))
    || (id in w.ops && (Settles(w.ops[id]) || (w.db.settlements[id].status == RESERVED && Definite(w.ops[id]))))
    || (id !in w.ops && exists p: nat :: p >= w.position && HopefulAt(c.mode, p))
  }

  // ---------------------------------------------------------------- otherwise it is stuck in every run

  /** The same facts turned round, with answers allowed that arrive under an old token. */
  ghost predicate Stuck(c: Config, w: World, id: Id) {
    && id in w.db.settlements && Open(w.db.settlements[id].status)
    && (id in w.ops ==> !Settles(w.ops[id]) && (Definite(w.ops[id]) ==> InPayout(w.db.settlements[id].status)))
    && (id !in w.ops ==> forall p: nat | p >= w.position :: !HopefulAt(c.mode, p))
    && forall k | 0 <= k < |w.calls| :: CallStuck(w.db, w.ops, id, w.calls[k].pc)
  }

  ghost predicate CallStuck(db: Db, ops: Operations, id: Id, pc: Pc) {
    Held(pc).Some? && Held(pc).value.0 == id && HasAnswer(ops, id, pc) ==> Held(pc).value.1 < TokenAt(db, id)
  }

  lemma HeldAtMostLast(w: World, k: nat)
    requires Holders(w) && Recorded(w.db, w.issued) && k < |w.calls| && Held(w.calls[k].pc).Some?
    ensures var h := Held(w.calls[k].pc).value; 0 < h.1 <= TokenAt(w.db, h.0)
  {
    assert HeldOk(w, k);
    var h := Held(w.calls[k].pc).value;
    var i :| 0 <= i < |w.issued| && w.issued[i] == Issue(h.0, h.1, k);
  }

  lemma CannotIsStuck(c: Config, w: World, id: Id)
    requires Disciplined(w) && id in w.db.settlements && !CanEnd(c, w, id)
    ensures Stuck(c, w, id)
  {
    hide Recorded, Holders, CallsOk, Definite, Settles, HopefulAt, HasAnswer;
    forall k | 0 <= k < |w.calls| ensures CallStuck(w.db, w.ops, id, w.calls[k].pc) {
      if Held(w.calls[k].pc).Some? && Held(w.calls[k].pc).value.0 == id {
        HeldAtMostLast(w, k);
        assert !Delivers(w, k, id);
      }
    }
  }

  lemma ReplyIsDefinite(ops: Operations, id: Id)
    ensures Terminal(StatusFor(Reply(ops, id))) ==> id in ops && Definite(ops[id])
  {
  }

  /** A submission for a stuck settlement stores nothing that helps it. */
  lemma SubmissionStuck(c: Config, w: World, id: Id, position: nat)
    requires Stuck(c, w, id) && position >= w.position
    ensures var ops := Stored(w.ops, c.mode, id, position);
      && (id in w.ops ==> ops == w.ops)
      && (id !in w.ops && id in ops ==> !Settles(ops[id]) && !Definite(ops[id]))
  {
    assert id !in w.ops ==> !HopefulAt(c.mode, position);
  }

  lemma SubmitterStuck(c: Config, w: World, call: Call, env: Env, id: Id)
    requires Stuck(c, w, id) && CallStuck(w.db, w.ops, id, call.pc) && (call.pc.Initiating? || call.pc.Resubmitting?)
    ensures CallStuck(w.db, OpsAfter(c, w.ops, w.position, call.pc, env), id, NextPc(c, w, call, env))
  {
    var ops := OpsAfter(c, w.ops, w.position, call.pc, env);
    if call.pc.id == id {
      SubmissionStuck(c, w, id, Taken(c, w.position, env));
      ReplyIsDefinite(ops, id);
    }
    hide Settles, Definite, HopefulAt, Stored, Reply;
  }

  lemma LookerStuck(c: Config, w: World, call: Call, env: Env, id: Id)
    requires Stuck(c, w, id) && call.pc.LookingUp?
    ensures CallStuck(w.db, w.ops, id, NextPc(c, w, call, env))
  {
    if call.pc.id == id && id in w.ops { SettlesByLookup(w.ops[id]); }
    hide Settles, HopefulAt;
  }

  lemma ClaimerStuck(c: Config, w: World, call: Call, env: Env, id: Id)
    requires Stuck(c, w, id) && call.pc.Claiming?
    ensures CallStuck(w.db, w.ops, id, NextPc(c, w, call, env))
  {
    hide Settles, HopefulAt, Definite;
  }

  /** A step of a call that is not about to deliver does not bring it there. */
  lemma NextStuck(c: Config, w: World, call: Call, env: Env, id: Id)
    requires Stuck(c, w, id) && CallStuck(w.db, w.ops, id, call.pc)
    ensures CallStuck(w.db, OpsAfter(c, w.ops, w.position, call.pc, env), id, NextPc(c, w, call, env))
  {
    hide Settles, HopefulAt, Definite, Stored, ClaimReserved, ClaimForReconciliation, FinalizeAttempt, InsertReserved, Stuck;
    match call.pc
    case Initiating(_, _) => SubmitterStuck(c, w, call, env, id);
    case Resubmitting(_, _) => SubmitterStuck(c, w, call, env, id);
    case LookingUp(_, _) => LookerStuck(c, w, call, env, id);
    case Claiming(_) => ClaimerStuck(c, w, call, env, id);
    case _ =>
  }

  lemma SettlesByLookup(op: Operation)
    ensures !Settles(op) ==> op.authority != Paid && op.authority != Unpaid && (op.authority == NotFound ==> !Definite(op))
  {
  }

  /** A change of the tables by a step leaves a stuck settlement open, and its token does not fall. */
  lemma RowStuck(c: Config, w: World, a: Action, id: Id)
    requires Stuck(c, w, id)
    ensures var after := Step(c, w, a).db;
      && id in after.settlements && Open(after.settlements[id].status) && TokenAt(w.db, id) <= TokenAt(after, id)
      && (InPayout(w.db.settlements[id].status) ==> InPayout(after.settlements[id].status))
  {
    var change := ChangeOf(w, a);
    StepTokens(c, w, a);
    NotLower(w.db, Step(c, w, a).db, Grants(c, w.db, w.clock, change, CallOf(w, a)), id);
    ChangedKept(c, w.db, w.clock, change);
    ChangedStatuses(c, w.db, w.clock, change, id);
    hide NextTokens, Grants, Settles, HopefulAt, Definite, IsBatch;
    if change.Finalization? && change.id == id && Terminal(StatusFor(change.result)) {
      LateAnswerAborts(c, w, a, id);
    }
    hide Changed, ChangeOf;
  }

  lemma LateAnswerAborts(c: Config, w: World, a: Action, id: Id)
    requires Stuck(c, w, id) && ChangeOf(w, a).Finalization? && ChangeOf(w, a).id == id
    requires Terminal(StatusFor(ChangeOf(w, a).result))
    ensures Changed(c, w.db, w.clock, ChangeOf(w, a)) == w.db
  {
    hide Settles, HopefulAt, Definite, PostEvent;
    assert a.Advance? && a.call < |w.calls|;
    var pc := w.calls[a.call].pc;
    assert CallStuck(w.db, w.ops, id, pc);
    assert pc.Finalizing? && HasAnswer(w.ops, id, pc);
  }

  lemma KeptCallStuck(before: World, after: World, id: Id, pc: Pc, ops: Operations)
    requires CallStuck(before.db, ops, id, pc) && TokenAt(before.db, id) <= TokenAt(after.db, id)
    ensures CallStuck(after.db, ops, id, pc)
  {
  }

  /** For the other calls, what a submission stores makes no difference. */
  lemma OtherCallStuck(c: Config, w: World, a: Action, id: Id, pc: Pc)
    requires Stuck(c, w, id) && CallStuck(w.db, w.ops, id, pc)
    ensures CallStuck(w.db, Step(c, w, a).ops, id, pc)
  {
    OpsStuck(c, w, a, id);
    hide Step, Settles, Definite, HopefulAt;
  }

  lemma OpsStuck(c: Config, w: World, a: Action, id: Id)
    requires Stuck(c, w, id)
    ensures var next := Step(c, w, a);
      && next.position >= w.position
      && (id in w.ops ==> id in next.ops && next.ops[id] == w.ops[id])
      && (id !in w.ops && id in next.ops ==> !Settles(next.ops[id]) && !Definite(next.ops[id]))
  {
    if a.Advance? && a.call < |w.calls| && Submits(w.calls[a.call].pc, a.env) && w.calls[a.call].pc.id == id {
      SubmissionStuck(c, w, id, Taken(c, w.position, a.env));
    }
    hide Changed, CallsAfter, Grants, ChangeOf, Settles, Definite, HopefulAt;
  }

  lemma FreshCallStuck(c: Config, w: World, a: Action, k: nat, id: Id)
    requires |w.calls| <= k < |Step(c, w, a).calls|
    ensures CallStuck(Step(c, w, a).db, Step(c, w, a).ops, id, Step(c, w, a).calls[k].pc)
  {
    hide Changed, ChangeOf;
  }

  lemma StuckStep(c: Config, w: World, a: Action, id: Id)
    requires Stuck(c, w, id)
    ensures Stuck(c, Step(c, w, a), id)
  {
    var next := Step(c, w, a);
    RowStuck(c, w, a, id);
    OpsStuck(c, w, a, id);
    forall k | 0 <= k < |next.calls| ensures CallStuck(next.db, next.ops, id, next.calls[k].pc) {
      StepCallStuck(c, w, a, k, id);
    }
    hide Step, CallStuck, Settles, Definite, HopefulAt;
  }

  lemma StepCallStuck(c: Config, w: World, a: Action, k: nat, id: Id)
    requires Stuck(c, w, id) && k < |Step(c, w, a).calls|
    ensures CallStuck(Step(c, w, a).db, Step(c, w, a).ops, id, Step(c, w, a).calls[k].pc)
  {
    hide Changed, ChangeOf, Grants, NextPc, CallStuck, Settles, Definite, HopefulAt, OpsAfter;
    var next := Step(c, w, a);
    RowStuck(c, w, a, id);
    if k < |w.calls| {
      assert CallStuck(w.db, w.ops, id, w.calls[k].pc);
      if a.Advance? && a.call == k {
        NextStuck(c, w, w.calls[k], a.env, id);
      } else {
        OtherCallStuck(c, w, a, id, w.calls[k].pc);
      }
      KeptCallStuck(w, next, id, next.calls[k].pc, next.ops);
    } else {
      FreshCallStuck(c, w, a, k, id);
    }
  }

  /** A stuck settlement stays stuck in every run, and so never ends. */
  lemma {:induction false} StuckForever(c: Config, w: World, more: seq<Action>, id: Id)
    requires Stuck(c, w, id)
    ensures Stuck(c, Run(c, w, more), id) && !Ended(Run(c, w, more), id)
  {
    hide Step;
    if more != [] {
      StuckForever(c, w, more[..|more| - 1], id);
      StuckStep(c, Run(c, w, more[..|more| - 1]), more[|more| - 1], id);
    }
    hide CallStuck, Settles, Definite, HopefulAt;
  }

  // ---------------------------------------------------------------- otherwise some run ends it

  /** Some run, of any calls and faults, ends the settlement. */
  ghost predicate Endable(c: Config, w: World, id: Id) { exists more: seq<Action> :: Ended(Run(c, w, more), id) }

  lemma StuckIsNotEndable(c: Config, w: World, id: Id)
    requires Stuck(c, w, id)
    ensures !Endable(c, w, id)
  {
    hide Step, Stuck, Ended;
    forall more: seq<Action> ensures !Ended(Run(c, w, more), id) { StuckForever(c, w, more, id); }
  }

  lemma EndableBy(c: Config, w: World, end: World, n: nat, gap: nat, id: Id)
    requires Reaches(c, w, end, n, gap) && Ended(end, id)
    ensures Endable(c, w, id)
  {
    hide Run, Ended;
    var more := ActionsOf(c, w, end, n, gap);
    assert Ended(Run(c, w, more), id);
  }

  lemma EndableLater(c: Config, w: World, mid: World, n: nat, gap: nat, id: Id)
    requires Reaches(c, w, mid, n, gap) && Endable(c, mid, id)
    ensures Endable(c, w, id)
  {
    hide Run, Ended;
    var first := ActionsOf(c, w, mid, n, gap);
    var more: seq<Action> :| Ended(Run(c, mid, more), id);
    RunConcat(c, w, first, more);
    assert Ended(Run(c, w, first + more), id);
  }

  lemma StatusEnds(w: World, id: Id, result: Option<Submission>)
    requires id in w.db.settlements && w.db.settlements[id].status == StatusFor(result)
    ensures Terminal(StatusFor(result)) ==> Ended(w, id)
    ensures Ended(w, id) || Unended(w, id)
  {
  }

  lemma DefiniteReplies(ops: Operations, id: Id)
    requires id in ops && Definite(ops[id])
    ensures Terminal(StatusFor(Reply(ops, id)))
  {
  }

  /** The holder of an answer brings it. */
  lemma DeliveryEnds(c: Config, w: World, opening: OpeningBalances, k: nat, id: Id)
    requires Consistent(w.db, opening) && id in w.db.settlements && Open(w.db.settlements[id].status) && Delivers(w, k, id)
    ensures Endable(c, w, id)
  {
    hide Consistent, Reaches, Step, Run, Endable, Ended, Definite, Reply, Stored, StatusFor, Taken;
    var pc, kind, token := w.calls[k].pc, w.calls[k].kind, w.db.attempts[id].token;
    assert At(w, k, kind, pc);
    ReachesSelf(c, w, 0);
    ReachesMove(c, w, w, 0, k, 0);
    var next := Move(c, w, k, 0);
    if pc.Finalizing? {
      MoveFinalizing(c, w, opening, k, kind, id, token, pc.result, 0);
      StatusEnds(next, id, pc.result);
      EndableBy(c, w, next, 1, 0, id);
    } else {
      MoveSubmitting(c, w, k, kind, id, token, 0);
      KnownStays(w.ops, c.mode, id, Taken(c, w.position, CleanEnv(0)));
      DefiniteReplies(next.ops, id);
      MoveFinalizing(c, next, opening, k, kind, id, token, Reply(next.ops, id), 0);
      ReachesMove(c, w, next, 1, k, 0);
      StatusEnds(Move(c, next, k, 0), id, Reply(next.ops, id));
      EndableBy(c, w, Move(c, next, k, 0), 2, 0, id);
    }
  }

  lemma KnownStays(ops: Operations, m: Mode, id: Id, position: nat)
    requires id in ops
    ensures Stored(ops, m, id, position) == ops
  {
  }

  /** After the answer of a hopeful operation the settlement has ended, or its authority ends it. */
  lemma HopefulAnswer(c: Config, w: World, opening: OpeningBalances, id: Id, gap: nat)
    requires Consistent(w.db, opening) && id in w.ops && Hopeful(w.ops[id])
    requires id in w.db.settlements && w.db.settlements[id].status == StatusFor(Reply(w.ops, id))
    ensures Endable(c, w, id)
  {
    hide Consistent, Reaches, Step, Run, Endable, Ended, Unended, Definite, Decided, Reply, StatusFor;
    StatusEnds(w, id, Reply(w.ops, id));
    if Ended(w, id) {
      ReachesSelf(c, w, gap);
      EndableBy(c, w, w, 0, gap, id);
    } else {
      if Definite(w.ops[id]) { DefiniteReplies(w.ops, id); }
      var end := ReconcileKnown(c, w, opening, id, gap);
      EndableBy(c, w, end, 6, gap, id);
    }
  }

  /** Replaying the request of a reserved settlement ends it, if it has or gets a hopeful operation. */
  lemma ReservedEnds(c: Config, w: World, opening: OpeningBalances, id: Id, gap: nat)
    requires Consistent(w.db, opening) && Requested(w.db) && id in w.db.settlements && w.db.settlements[id].status == RESERVED
    requires Submittable(c, w, id, gap)
    requires var ops := Stored(w.ops, c.mode, id, Taken(c, w.position, CleanEnv(gap))); id in ops && Hopeful(ops[id])
    ensures Endable(c, w, id)
  {
    hide Consistent, Reaches, Step, Run, Endable, At, Stored, Reply, StatusFor, Taken, CleanEnv, Belongs, Hopeful, OutcomeForPosition;
    var r: Request :| Belongs(w.db, id, r);
    var replayed, k := ReplayReserved(c, w, opening, id, r, gap);
    var mid := PayoutFromClaiming(c, replayed, opening, k, Create(r), id, gap);
    ReachesTrans(c, w, replayed, mid, 2, 3, gap);
    ReachedConsistent(c, w, opening, mid, 5, gap);
    HopefulAnswer(c, mid, opening, id, gap);
    EndableLater(c, w, mid, 5, gap, id);
  }

  /** A reconciliation that finds no operation submits it, and ends the settlement if the operation is hopeful. */
  lemma MissingEnds(c: Config, w: World, opening: OpeningBalances, id: Id, gap: nat)
    requires Consistent(w.db, opening) && Unended(w, id) && LookupOf(w.ops, id) == NotFound && Submittable(c, w, id, gap)
    requires var ops := Stored(w.ops, c.mode, id, Taken(c, w.position, CleanEnv(gap))); id in ops && Hopeful(ops[id])
    ensures Endable(c, w, id)
  {
    hide Consistent, Reaches, Step, Run, Endable, At, Stored, Reply, StatusFor, Taken, CleanEnv, Hopeful, OutcomeForPosition, LookupOf, Finalizable;
    var claimed, k, token := ClaimAfterLease(c, w, opening, id, gap);
    var mid := SubmitFromLookup(c, claimed, opening, k, Reconcile(true), id, token, gap);
    ReachesTrans(c, w, claimed, mid, 4, 3, gap);
    ReachedConsistent(c, w, opening, mid, 7, gap);
    HopefulAnswer(c, mid, opening, id, gap);
    EndableLater(c, w, mid, 7, gap, id);
  }

  /** With a settling operation a reconciliation ends a settlement in payout. */
  lemma SettlingEnds(c: Config, w: World, opening: OpeningBalances, id: Id)
    requires Consistent(w.db, opening) && Unended(w, id) && id in w.ops && Settles(w.ops[id])
    ensures Endable(c, w, id)
  {
    hide Consistent, Reaches, Step, Run, Endable, Definite;
    if Decided(w.ops[id]) {
      var end := ReconcileKnown(c, w, opening, id, 0);
      EndableBy(c, w, end, 6, 0, id);
    } else {
      KnownStays(w.ops, c.mode, id, Taken(c, w.position, CleanEnv(0)));
      MissingEnds(c, w, opening, id, 0);
    }
  }

  lemma HopeIsStored(c: Config, w: World, id: Id, gap: nat)
    requires id !in w.ops && HopefulAt(c.mode, Taken(c, w.position, CleanEnv(gap)))
    ensures var ops := Stored(w.ops, c.mode, id, Taken(c, w.position, CleanEnv(gap))); id in ops && Hopeful(ops[id])
    ensures Submittable(c, w, id, gap) && LookupOf(w.ops, id) == NotFound
  {
    hide Hopeful, Taken, CleanEnv;
  }

  /** Without an operation, the next position decides. */
  lemma NextPositionEnds(c: Config, w: World, opening: OpeningBalances, id: Id, gap: nat)
    requires Consistent(w.db, opening) && Requested(w.db) && id in w.db.settlements && id !in w.ops
    requires HopefulAt(c.mode, Taken(c, w.position, CleanEnv(gap)))
    ensures Endable(c, w, id)
  {
    hide Consistent, Requested, Endable, Hopeful, HopefulAt, Stored, Taken, CleanEnv, LookupOf, Submittable, Reaches;
    HopeIsStored(c, w, id, gap);
    var status := w.db.settlements[id].status;
    if status == RESERVED {
      ReservedEnds(c, w, opening, id, gap);
    } else if InPayout(status) {
      MissingEnds(c, w, opening, id, gap);
    } else {
      ReachesSelf(c, w, gap);
      EndableBy(c, w, w, 0, gap, id);
    }
  }

  // ---------------------------------------------------------------- reaching a hopeful position

  lemma FreshNumber(used: set<nat>) returns (n: nat)
    ensures n !in used
  {
    if used == {} {
      n := 0;
    } else {
      var m := LargestIs(used);
      n := m + 1;
    }
  }

  lemma {:induction false} LargestIs(used: set<nat>) returns (m: nat)
    requires used != {}
    ensures m in used && forall x | x in used :: x <= m
    decreases used
  {
    var x :| x in used;
    if used == {x} {
      m := x;
    } else {
      assert used - {x} != {} by { assert used == (used - {x}) + {x}; }
      var y := LargestIs(used - {x});
      m := if x > y then x else y;
      assert forall z | z in used :: z == x || z in used - {x};
    }
  }

  /** An owner can still pay for `n` units. */
  predicate Funded(db: Db, owner: string, n: int) {
    AvailableOf(owner) in db.books.accounts && db.books.accounts[AvailableOf(owner)].balance >= n
  }

  ghost function KeyLengths(settlements: Settlements): set<nat> { set id | id in settlements :: |settlements[id].key| }

  lemma FreshRequest(db: Db, owner: string, q: RouteQuote, n: nat)
    requires n !in db.settlements && n !in KeyLengths(db.settlements) && Funded(db, owner, 1) && Quotable(1, q.rate)
    ensures Fundable(db, n, UnitRequest(owner, n), q)
  {
    UnitUnits(owner, n);
    hide Quotable;
    forall id | id in db.settlements ensures !HasKey(db, id, owner, Zeros(n)) {
      assert |db.settlements[id].key| in KeyLengths(db.settlements);
    }
  }

  lemma InsertionCosts(db: Db, opening: OpeningBalances, id: Id, r: Request, q: RouteQuote, n: int)
    requires Consistent(db, opening) && InsertReserved(db, id, r, q).Committed? && Units(r.command.amount) == 1
    requires Funded(db, r.owner, n)
    ensures Funded(InsertReserved(db, id, r, q).db, r.owner, n - 1)
  {
    InsertOutcome(db, opening, id, r, q);
    hide Consistent, InsertReserved, PostEvent;
    assert AvailableOf(r.owner) != ReservedOf(r.owner);
  }

  lemma UnitOwner(owner: string, n: nat)
    ensures UnitRequest(owner, n).owner == owner
  {
  }

  /** Another settlement takes the provider's next position. */
  lemma OneMore(c: Config, w: World, opening: OpeningBalances, owner: string, q: RouteQuote, id: Id, n: int) returns (next: World)
    requires Consistent(w.db, opening) && id in w.db.settlements && id !in w.ops
    requires Funded(w.db, owner, n) && n >= 1 && Quotable(1, q.rate) && OutcomeForPosition(c.mode, w.position).Some?
    ensures Reaches(c, w, next, 5, 0) && Consistent(next.db, opening)
    ensures id in next.db.settlements && id !in next.ops && next.position == w.position + 1 && Funded(next.db, owner, n - 1)
  {
    hide Consistent, Reaches, At, OutcomeForPosition, Quotable, UnitRequest, InsertReserved, Fundable, NewSettlement;
    var m := FreshNumber(w.db.settlements.Keys + w.ops.Keys + KeyLengths(w.db.settlements));
    var r := UnitRequest(owner, m);
    UnitUnits(owner, m);
    UnitOwner(owner, m);
    FreshRequest(w.db, owner, q, m);
    var claiming, k := CreateToClaiming(c, w, opening, m, r, q, 0);
    InsertionCosts(w.db, opening, m, r, q, n);
    NewIsReserved(r, q);
    next := SubmitNext(c, claiming, opening, k, Create(r), m);
    ReachesTrans(c, w, claiming, next, 3, 2, 0);
    assert id in next.db.settlements.Keys && id !in next.ops.Keys;
  }

  /** Other settlements take the next `n` positions. */
  lemma {:induction false} DrainAway(c: Config, w: World, opening: OpeningBalances, owner: string, q: RouteQuote, id: Id, n: nat)
    returns (next: World)
    requires Consistent(w.db, opening) && id in w.db.settlements && id !in w.ops
    requires Funded(w.db, owner, n) && Quotable(1, q.rate) && forall p: nat :: OutcomeForPosition(c.mode, p).Some?
    ensures Reaches(c, w, next, 5 * n, 0) && Consistent(next.db, opening)
    ensures id in next.db.settlements && id !in next.ops && next.position == w.position + n
    decreases n
  {
    hide Consistent, Reaches, OutcomeForPosition, Quotable, Funded;
    if n == 0 {
      next := w;
      ReachesSelf(c, w, 0);
    } else {
      var first := OneMore(c, w, opening, owner, q, id, n);
      next := DrainAway(c, first, opening, owner, q, id, n - 1);
      ReachesTrans(c, w, first, next, 5, 5 * (n - 1), 0);
    }
  }

  /** Scripts repeat themselves: some position of the next round has the outcome of `p`. */
  lemma SameOutcome(m: Mode, position: nat, p: nat) returns (d: nat)
    requires Scripted(m) && p >= position
    ensures d < |m.outcomes.value| && OutcomeForPosition(m, position + d) == OutcomeForPosition(m, p)
  {
    var n := |m.outcomes.value|;
    d := (p - position) % n;
    SameRemainder(position, p, n);
  }

  lemma SameRemainder(position: nat, p: nat, n: nat)
    requires n > 0 && p >= position
    ensures (position + (p - position) % n) % n == p % n
  {
    var d, x := (p - position) % n, position + (p - position) % n;
    var k, l := (p - position) / n, x / n;
    assert p - position == k * n + d && x == l * n + x % n;
    Distribute(k, l, n);
    RemainderIs(p, k + l, x % n, n);
  }

  lemma Distribute(k: int, l: int, n: int)
    ensures (k + l) * n == k * n + l * n
  {
  }

  lemma RemainderIs(x: int, k: int, r: int, n: int)
    requires n > 0 && 0 <= r < n && x == k * n + r
    ensures x % n == r
  {
    var l := x / n;
    assert x == l * n + x % n;
    if k < l { Apart(k, l, n); } else if l < k { Apart(l, k, n); }
  }

  lemma Apart(k: int, l: int, n: int)
    requires k < l && n > 0
    ensures k * n + n <= l * n
  {
    Distribute(k, l - k, n);
    AtLeastOnce(l - k, n);
  }

  lemma {:induction false} AtLeastOnce(d: int, n: int)
    requires d >= 1 && n > 0
    ensures d * n >= n
    decreases d
  {
    if d > 1 {
      AtLeastOnce(d - 1, n);
      Distribute(d - 1, 1, n);
    }
  }

  /** Without a script every outcome is hopeful, and the load provider's positions end at their limit. */
  lemma UnscriptedIsHopeful(m: Mode, position: nat, p: nat)
    requires !Scripted(m) && p >= position && HopefulAt(m, p)
    ensures HopefulAt(m, position)
  {
  }

  lemma AtGap(c: Config, w: World, gap: nat)
    ensures Taken(c, w.position, CleanEnv(gap)) == if c.durable then w.position + gap else w.position
  {
  }

  lemma ScriptNeverStops(m: Mode)
    requires Scripted(m)
    ensures forall p: nat :: OutcomeForPosition(m, p).Some?
  {
  }

  /** What pays for the positions of one round of a script that is kept in memory; anything else needs no money. */
  ghost predicate PaysForScript(c: Config, db: Db, owner: string, q: RouteQuote) {
    Scripted(c.mode) && !c.durable ==> Funded(db, owner, |c.mode.outcomes.value|) && Quotable(1, q.rate)
  }

  lemma LaterPositionEnds(c: Config, w: World, opening: OpeningBalances, id: Id, p: nat, owner: string, q: RouteQuote)
    requires Consistent(w.db, opening) && Requested(w.db) && id in w.db.settlements && id !in w.ops
    requires p >= w.position && HopefulAt(c.mode, p) && PaysForScript(c, w.db, owner, q)
    ensures Endable(c, w, id)
  {
    hide Consistent, Requested, Reaches, Endable, OutcomeForPosition, Hopeful, Quotable;
    if !Scripted(c.mode) {
      UnscriptedIsHopeful(c.mode, w.position, p);
      AtGap(c, w, 0);
      NextPositionEnds(c, w, opening, id, 0);
    } else if c.durable {
      AtGap(c, w, p - w.position);
      NextPositionEnds(c, w, opening, id, p - w.position);
    } else {
      var d := SameOutcome(c.mode, w.position, p);
      ScriptNeverStops(c.mode);
      var mid := DrainAway(c, w, opening, owner, q, id, d);
      ReachedRequested(c, w, mid, 5 * d, 0);
      AtGap(c, mid, 0);
      NextPositionEnds(c, mid, opening, id, 0);
      EndableLater(c, w, mid, 5 * d, 0, id);
    }
  }

  lemma ReachedRequested(c: Config, w: World, end: World, n: nat, gap: nat)
    requires Requested(w.db) && Reaches(c, w, end, n, gap)
    ensures Requested(end.db)
  {
    hide Requested, Run;
    var actions := ActionsOf(c, w, end, n, gap);
    AlwaysRequested(c, w, actions);
  }

  lemma StoredEnds(c: Config, w: World, opening: OpeningBalances, id: Id)
    requires Consistent(w.db, opening) && Requested(w.db) && id in w.db.settlements && id in w.ops
    requires Open(w.db.settlements[id].status)
    requires Settles(w.ops[id]) || (w.db.settlements[id].status == RESERVED && Definite(w.ops[id]))
    ensures Endable(c, w, id)
  {
    hide Consistent, Requested, Endable, Definite, Decided, Taken, CleanEnv;
    if w.db.settlements[id].status == RESERVED {
      KnownStays(w.ops, c.mode, id, Taken(c, w.position, CleanEnv(0)));
      ReservedEnds(c, w, opening, id, 0);
    } else {
      SettlingEnds(c, w, opening, id);
    }
  }

  // ---------------------------------------------------------------- main result

  /** For every configuration, a settlement of a reachable state can still end if and only if it has, somebody holds its
      answer under the present token, its operation settles it, or it has none and the provider may yet hand out one
      that does. For a script kept in memory the last case needs money for the settlements that use up its positions. */
  lemma CanEndExactly(c: Config, w: World, opening: OpeningBalances, actions: seq<Action>, id: Id, owner: string, q: RouteQuote)
    requires Initial(w, opening) && id in Run(c, w, actions).db.settlements
    requires PaysForScript(c, Run(c, w, actions).db, owner, q)
    ensures var now := Run(c, w, actions);
      Endable(c, now, id) <==> CanEnd(c, now, id)
  {
    hide Endable, Initial, Consistent, Disciplined, Requested, Run, Ended, Stuck, Delivers, Settles, Definite, HopefulAt, PaysForScript;
    var now := Run(c, w, actions);
    assert Consistent(w.db, opening) && Disciplined(w) by { InitialDisciplined(w, opening); }
    AlwaysDisciplined(c, w, opening, actions);
    AlwaysConsistent(c, w, opening, actions);
    InitialRequested(w, opening);
    AlwaysRequested(c, w, actions);
    if CanEnd(c, now, id) {
      CanEndIsEndable(c, now, opening, id, owner, q);
    } else {
      CannotIsStuck(c, now, id);
      StuckIsNotEndable(c, now, id);
    }
  }

  lemma InitialRequested(w: World, opening: OpeningBalances)
    requires Initial(w, opening)
    ensures Requested(w.db)
  {
    hide Consistent;
  }

  lemma CanEndIsEndable(c: Config, w: World, opening: OpeningBalances, id: Id, owner: string, q: RouteQuote)
    requires Consistent(w.db, opening) && Requested(w.db) && id in w.db.settlements && CanEnd(c, w, id)
    requires PaysForScript(c, w.db, owner, q)
    ensures Endable(c, w, id)
  {
    hide Consistent, Requested, Reaches, Endable, Delivers, Settles, Definite, HopefulAt, PaysForScript;
    if Terminal(w.db.settlements[id].status) {
      ReachesSelf(c, w, 0);
      EndableBy(c, w, w, 0, 0, id);
    } else if k: nat :| Delivers(w, k, id) {
      DeliveryEnds(c, w, opening, k, id);
    } else if id in w.ops {
      StoredEnds(c, w, opening, id);
    } else {
      var p: nat :| p >= w.position && HopefulAt(c.mode, p);
      LaterPositionEnds(c, w, opening, id, p, owner, q);
    }
  }

  /** A script of nothing but UNKNOWN, with an undecided answer to lookups: a funded request is stranded for ever. */
  lemma UnknownScriptStrands(c: Config, w: World, opening: OpeningBalances, owner: string, q: RouteQuote)
    returns (actions: seq<Action>)
    requires Initial(w, opening) && owner in opening.owners && opening.owners[owner] > 0 && Quotable(1, q.rate)
    requires Scripted(c.mode) && c.mode.timeoutLookup != Paid && c.mode.timeoutLookup != Unpaid
    requires forall o | o in c.mode.outcomes.value :: o == Unknown
    ensures var now := Run(c, w, actions);
      && 0 in now.db.settlements && now.db.settlements[0].status == RESERVED
      && !Endable(c, now, 0)
  {
    NothingHopeful(c.mode);
    ScriptNeverStops(c.mode);
    hide Initial, Consistent, Run, HopefulAt, Quotable, Reaches, At, UnitRequest, Endable, OutcomeForPosition, Disciplined;
    var stranded, k := ClaimingAtPosition(c, w, opening, owner, q, 0);
    actions := ActionsOf(c, w, stranded, 3, 0);
    InitialDisciplined(w, opening);
    AlwaysDisciplined(c, w, opening, actions);
    HopelessIsStranded(c, stranded, opening, 0);
  }

  lemma HopelessIsStranded(c: Config, w: World, opening: OpeningBalances, id: Id)
    requires Consistent(w.db, opening) && Disciplined(w) && id in w.db.settlements && w.db.settlements[id].status == RESERVED
    requires id !in w.ops && forall p: nat :: !HopefulAt(c.mode, p)
    ensures !Endable(c, w, id)
  {
    hide Consistent, Disciplined, Stuck, Delivers, HopefulAt, Endable;
    ReservedHasNoAttempt(w.db, opening, id);
    NobodyDelivers(w, id);
    CannotIsStuck(c, w, id);
    StuckIsNotEndable(c, w, id);
  }

  lemma NobodyDelivers(w: World, id: Id)
    requires id !in w.db.attempts
    ensures forall k: nat :: !Delivers(w, k, id)
  {
  }

  lemma NothingHopeful(m: Mode)
    requires Scripted(m) && m.timeoutLookup != Paid && m.timeoutLookup != Unpaid
    requires forall o | o in m.outcomes.value :: o == Unknown
    ensures forall p: nat :: !HopefulAt(m, p)
  {
    forall p: nat ensures !HopefulAt(m, p) {
      assert m.outcomes.value[p % |m.outcomes.value|] in m.outcomes.value;
    }
  }
}
