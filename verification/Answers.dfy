/** What the callers are told: every status returned is the row's, and every error has its cause. */
module Answers {
  import opened Options
  import opened Routing
  import opened Fingerprint
  import opened Ledger
  import opened Provider
  import opened Service
  import opened Accounting
  import opened Protocol
  import opened Fencing
  import opened IdempotentCreate

  // ---------------------------------------------------------------- statuses

  /** Call `k` has just now, in the step from `w` to `next`, returned this settlement and status. */
  ghost predicate Returns(w: World, next: World, k: nat, id: Id, s: Status) {
    k < |w.calls| && k < |next.calls| && !w.calls[k].pc.Returned? && next.calls[k].pc == Returned(id, s)
  }

  /** Whenever a call returns a status, it is the status of the row at that moment. */
  lemma ReturnedStatusIsTheRows(c: Config, w: World, a: Action, k: nat, id: Id, s: Status)
    requires Returns(w, Step(c, w, a), k, id, s)
    ensures id in Step(c, w, a).db.settlements && Step(c, w, a).db.settlements[id].status == s
  {
    AdvancesCall(c, w, a, k);
    assert Step(c, w, a).db == Changed(c, w.db, w.clock, ChangeOf(w, a));
    hide Step, Changed, NextPc;
    AnswersRow(c, w, w.calls[k], a.env, id, s);
  }

  /** Only an advance of the call itself changes it. */
  lemma AdvancesCall(c: Config, w: World, a: Action, k: nat)
    requires k < |w.calls|
    ensures k < |Step(c, w, a).calls|
    ensures Step(c, w, a).calls[k]
      == if a.Advance? && a.call == k then w.calls[k].(pc := NextPc(c, w, w.calls[k], a.env)) else w.calls[k]
  {
    hide Changed, ChangeOf, Grants, NextPc, OpsAfter, NextPosition;
  }

  lemma AnswersRow(c: Config, w: World, call: Call, env: Env, id: Id, s: Status)
    requires !call.pc.Returned? && NextPc(c, w, call, env) == Returned(id, s)
    ensures var after := Changed(c, w.db, w.clock, if env.fault != LostBefore then Attempted(call, env) else NoChange);
      id in after.settlements && after.settlements[id].status == s
  {
    hide InsertReserved, ClaimReserved, ClaimForReconciliation, KeyTaken;
    if call.kind.Create? { FoundRow(w.db, call.kind.request.owner, call.kind.request.key); }
    if call.pc.Finalizing? { FinalizedStatus(w.db, call.pc.id, call.pc.token, call.pc.result, w.clock); }
    hide FinalizeAttempt, FindRow;
  }

  lemma FinalizedStatus(db: Db, id: Id, token: int, result: Option<Submission>, now: int)
    requires FinalizeAttempt(db, id, token, result, now).Committed?
    ensures var tx := FinalizeAttempt(db, id, token, result, now);
      id in tx.db.settlements && tx.db.settlements[id].status == tx.value
  {
    hide PostEvent;
  }

  /** What a call has returned is behind its row at most: the row has not gone back, and has stayed if it had ended. */
  ghost predicate AnswerHolds(db: Db, pc: Pc) {
    pc.Returned? ==>
      && pc.id in db.settlements && Rank(pc.status) <= Rank(db.settlements[pc.id].status)
      && (Terminal(pc.status) ==> db.settlements[pc.id].status == pc.status)
  }

  ghost predicate AnswersHold(w: World) { forall k | 0 <= k < |w.calls| :: AnswerHolds(w.db, w.calls[k].pc) }

  lemma AnswerKept(before: Db, after: Db, pc: Pc)
    requires AnswerHolds(before, pc) && Kept(before, after)
    ensures AnswerHolds(after, pc)
  {
  }

  lemma FreshCallsAnswerNothing(c: Config, w: World, a: Action, k: nat)
    requires |w.calls| <= k < |Step(c, w, a).calls|
    ensures !Step(c, w, a).calls[k].pc.Returned?
  {
    hide Changed, ChangeOf, Grants;
  }

  lemma ReturnedStays(c: Config, w: World, a: Action, k: nat)
    requires k < |w.calls|
    ensures k < |Step(c, w, a).calls|
    ensures w.calls[k].pc.Returned? ==> Step(c, w, a).calls[k].pc == w.calls[k].pc
    ensures !a.Advance? || a.call != k ==> Step(c, w, a).calls[k] == w.calls[k]
  {
    hide Changed, ChangeOf, Grants;
  }

  lemma StepAnswersHold(c: Config, w: World, a: Action)
    requires AnswersHold(w)
    ensures AnswersHold(Step(c, w, a))
  {
    var next := Step(c, w, a);
    ChangedKept(c, w.db, w.clock, ChangeOf(w, a));
    assert next.db == Changed(c, w.db, w.clock, ChangeOf(w, a));
    hide Step, Changed, Kept, AnswerHolds, ChangeOf;
    forall k | 0 <= k < |next.calls| ensures AnswerHolds(next.db, next.calls[k].pc) {
      if k < |w.calls| {
        ReturnedStays(c, w, a, k);
        if w.calls[k].pc.Returned? {
          assert AnswerHolds(w.db, w.calls[k].pc);
          AnswerKept(w.db, next.db, w.calls[k].pc);
        } else {
          NewAnswerHolds(c, w, a, k);
        }
      } else {
        FreshCallsAnswerNothing(c, w, a, k);
        NoAnswer(next.db, next.calls[k].pc);
      }
    }
  }

  lemma NoAnswer(db: Db, pc: Pc)
    requires !pc.Returned?
    ensures AnswerHolds(db, pc)
  {
  }

  lemma NewAnswerHolds(c: Config, w: World, a: Action, k: nat)
    requires k < |w.calls| && k < |Step(c, w, a).calls| && !w.calls[k].pc.Returned?
    ensures AnswerHolds(Step(c, w, a).db, Step(c, w, a).calls[k].pc)
  {
    hide Step;
    var pc := Step(c, w, a).calls[k].pc;
    if pc.Returned? { ReturnedStatusIsTheRows(c, w, a, k, pc.id, pc.status); }
  }

  /** Over all runs: a returned status is never ahead of its row, and a returned SUCCESS or FAILED is the row's for ever. */
  lemma {:induction false} AnswersStayTrue(c: Config, w: World, opening: OpeningBalances, actions: seq<Action>)
    requires Initial(w, opening)
    ensures AnswersHold(Run(c, w, actions))
  {
    hide Step, AnswerHolds;
    if actions == [] {
      assert w.calls == [];
    } else {
      AnswersStayTrue(c, w, opening, actions[..|actions| - 1]);
      StepAnswersHold(c, Run(c, w, actions[..|actions| - 1]), actions[|actions| - 1]);
    }
  }

  // ---------------------------------------------------------------- errors

  /** When an insertion goes through: rate and quote can be stored, id and key are free, and the owner has the money. */
  lemma InsertionAnswers(c: Config, w: World, opening: OpeningBalances, call: Call, env: Env)
    requires Consistent(w.db, opening) && call.kind.Create? && call.pc.Inserting? && env.fault == Clean
    ensures var db, r, next := w.db, call.kind.request, NextPc(c, w, call, env);
      var available := AccountKey(r.owner, USD, Available);
      && (next == Claiming(env.freshId) <==>
        && Quotable(Units(r.command.amount), call.pc.quote.rate) && env.freshId !in db.settlements
        && !KeyTaken(db, r.owner, r.key)
        && available in db.books.accounts && db.books.accounts[available].balance >= Units(r.command.amount))
      && (next == Raised(Database(LedgerRefused(InsufficientFunds))) <==>
        && Quotable(Units(r.command.amount), call.pc.quote.rate) && env.freshId !in db.settlements
        && !KeyTaken(db, r.owner, r.key)
        && available in db.books.accounts && db.books.accounts[available].balance < Units(r.command.amount))
      && (next == Reloading <==>
        && Quotable(Units(r.command.amount), call.pc.quote.rate) && env.freshId !in db.settlements
        && KeyTaken(db, r.owner, r.key))
  {
    var r := call.kind.request;
    InsertionPosts(w.db, opening, env.freshId, r);
    hide Consistent, Quotable, PostEvent, KeyTaken;
  }

  lemma InsertionPosts(db: Db, opening: OpeningBalances, id: Id, r: Request)
    requires Consistent(db, opening)
    ensures id !in db.settlements ==>
      var entry := PostEvent(db.books, id, Reserve, r.owner, Units(r.command.amount));
      var known := AvailableOf(r.owner) in db.books.accounts;
      && (entry.Entered? <==> (known && db.books.accounts[AvailableOf(r.owner)].balance >= Units(r.command.amount)))
      && (entry == Refused(InsufficientFunds) <==> (known && db.books.accounts[AvailableOf(r.owner)].balance < Units(r.command.amount)))
  {
    if id !in db.settlements {
      EventIsFree(db, opening, id);
      AccountsTogether(db, opening, r.owner);
      hide Consistent, HasEvent;
    }
  }

  lemma EventIsFree(db: Db, opening: OpeningBalances, id: Id)
    requires Consistent(db, opening) && id !in db.settlements
    ensures !HasEvent(db.books.journals, id, Reserve)
  {
    hide Balanced, Tracked, UniqueKeys, UniqueEvents, WellPosted, HasEvent;
    assert !Expected(db.settlements, id, Reserve);
  }

  lemma AccountsTogether(db: Db, opening: OpeningBalances, o: string)
    requires Consistent(db, opening)
    ensures AvailableOf(o) in db.books.accounts <==> ReservedOf(o) in db.books.accounts
    ensures AvailableOf(o) in db.books.accounts ==>
      && db.books.accounts[AvailableOf(o)].kind == LIABILITY && db.books.accounts[ReservedOf(o)].kind == LIABILITY
      && db.books.accounts[ReservedOf(o)].balance >= 0
  {
    hide Journaled, Tracked, UniqueKeys, OwnersMatch, OmnibusMatches, RowsOwned;
    assert OwnerCharted(db.books.accounts, opening, o);
    if ReservedOf(o) in db.books.accounts { SoundIsNonNegative(db.books, ReservedOf(o)); }
  }

  /** Every error that a call raises has its cause. */
  ghost predicate HasCause(w: World, call: Call, env: Env, e: CallError) {
    match e
    case ConnectionLost => env.fault != Clean
    case NoRoute => call.kind.Create? && call.pc.Finding? && env.quote.None? && !KeyTaken(w.db, call.kind.request.owner, call.kind.request.key)
    case IdempotencyConflict => call.kind.Create? && Contradicted(w.db, call.kind.request)
    case ProviderFailed => call.pc.Recovering? && call.kind == Reconcile(true)
    case WinnerMissing => false
    case Database(error) =>
      match error
      case SettlementNotFound =>
        && !call.pc.Finding? && !call.pc.Inserting? && !call.pc.Reloading? && !call.pc.Raised?
        && (call.pc.id in w.db.settlements ==> (call.pc.Finalizing? || call.pc.Recovering?) && call.pc.id !in w.db.attempts)
      case LedgerRefused(e) => call.pc.Inserting? && e != AmountNotPositive
      case ConstraintViolation =>
        || (call.pc.Inserting? && call.kind.Create?
            && (env.freshId in w.db.settlements || !Quotable(Units(call.kind.request.command.amount), call.pc.quote.rate)))
        || (call.pc.Claiming? && call.pc.id in w.db.attempts)
      case _ => false
  }

  lemma LookupHasCause(c: Config, w: World, call: Call, env: Env)
    requires CallOk(w.db, call) && (call.pc.Finding? || call.pc.Reloading?) && NextPc(c, w, call, env).Raised?
    ensures HasCause(w, call, env, NextPc(c, w, call, env).error)
  {
    hide KeyTaken;
    if call.kind.Create? { FoundRow(w.db, call.kind.request.owner, call.kind.request.key); }
    hide FindRow;
  }

  lemma WritingHasCause(c: Config, w: World, call: Call, env: Env)
    requires CallOk(w.db, call) && (call.pc.Inserting? || call.pc.Claiming? || call.pc.Reclaiming?)
    requires NextPc(c, w, call, env).Raised?
    ensures HasCause(w, call, env, NextPc(c, w, call, env).error)
  {
    if call.pc.Inserting? && call.kind.Create? { AmountIsPositive(w.db.books, env.freshId, call.kind.request); }
    hide KeyTaken, PostEvent, Quotable, NewSettlement, FindRow;
  }

  lemma AmountIsPositive(b: Books, id: Id, r: Request)
    ensures PostEvent(b, id, Reserve, r.owner, Units(r.command.amount)) != Refused(AmountNotPositive)
  {
  }

  lemma FinishingHasCause(c: Config, w: World, opening: OpeningBalances, call: Call, env: Env)
    requires Consistent(w.db, opening) && (call.pc.Finalizing? || call.pc.Recovering?) && NextPc(c, w, call, env).Raised?
    ensures HasCause(w, call, env, NextPc(c, w, call, env).error)
  {
    hide Consistent, FinalizeAttempt, KeyTaken, FindRow, Contradicted;
    var pc := call.pc;
    var result := if pc.Recovering? then None else pc.result;
    if pc.id in w.db.settlements && pc.id in w.db.attempts { Found(w.db, pc.id, pc.token, result, w.clock); }
    FinalizeNeverRefused(w.db, opening, pc.id, pc.token, result, w.clock);
  }

  lemma RaisedHasCause(c: Config, w: World, opening: OpeningBalances, call: Call, env: Env)
    requires Consistent(w.db, opening) && CallOk(w.db, call) && !call.pc.Raised?
    requires NextPc(c, w, call, env).Raised?
    ensures HasCause(w, call, env, NextPc(c, w, call, env).error)
  {
    hide Consistent, CallOk, HasCause, NextPc;
    match call.pc
    case Finding => LookupHasCause(c, w, call, env);
    case Reloading => LookupHasCause(c, w, call, env);
    case Inserting(_) => WritingHasCause(c, w, call, env);
    case Claiming(_) => WritingHasCause(c, w, call, env);
    case Reclaiming(_) => WritingHasCause(c, w, call, env);
    case Finalizing(_, _, _) => FinishingHasCause(c, w, opening, call, env);
    case Recovering(_, _) => FinishingHasCause(c, w, opening, call, env);
    case _ => OthersHaveCause(c, w, call, env);
  }

  lemma OthersHaveCause(c: Config, w: World, call: Call, env: Env)
    requires call.pc.Initiating? || call.pc.Checking? || call.pc.LookingUp? || call.pc.Resubmitting? || call.pc.Reading?
      || call.pc.Returned?
    requires NextPc(c, w, call, env).Raised?
    ensures HasCause(w, call, env, NextPc(c, w, call, env).error)
  {
    hide KeyTaken, FindRow, Contradicted;
  }

  // ---------------------------------------------------------------- submissions and recoveries

  /** The call has been issued a token and works under it. */
  predicate Works(pc: Pc) { pc.Initiating? || pc.LookingUp? || pc.Resubmitting? || pc.Finalizing? || pc.Recovering? }

  /** Who works under a token goes on under it, and lets go only by finalizing under it; a reconciliation whose finalization
      was disturbed first comes to finalize once more, without a result. */
  lemma ClaimsAreWorkedOff(c: Config, w: World, a: Action, k: nat)
    requires k < |w.calls| && Works(w.calls[k].pc)
    ensures k < |Step(c, w, a).calls|
    ensures var pc, next := w.calls[k].pc, Step(c, w, a).calls[k].pc;
      && (Works(next) ==> next.id == pc.id && next.token == pc.token)
      && (!Works(next) ==>
        && a.Advance? && a.call == k && (pc.Finalizing? || pc.Recovering?)
        && (a.env.fault != LostBefore ==> ChangeOf(w, a) == Finalization(pc.id, pc.token, if pc.Finalizing? then pc.result else None))
        && (pc.Finalizing? && w.calls[k].kind.Reconcile? ==> a.env.fault == Clean))
      && (w.calls[k].kind.Create? && pc.Initiating? ==> Works(next))
  {
    hide Changed, InsertReserved, ClaimReserved, ClaimForReconciliation, FinalizeAttempt, FindRow, KeyTaken, Stored;
  }

  /** What a call finalizes with is what it has just been told: the answer to its submission, or the verdict of its lookup,
      and nothing where the exchange was disturbed, timed out, or told neither PAID nor UNPAID. */
  lemma ResultsAreHeard(c: Config, w: World, a: Action, k: nat)
    requires k < |w.calls| && k < |Step(c, w, a).calls|
    requires !w.calls[k].pc.Finalizing? && Step(c, w, a).calls[k].pc.Finalizing?
    ensures var pc, id, result, ops := w.calls[k].pc, Step(c, w, a).calls[k].pc.id, Step(c, w, a).calls[k].pc.result, Step(c, w, a).ops;
      && a.Advance? && a.call == k && (pc.Initiating? || pc.Resubmitting? || pc.LookingUp?)
      && (a.env.fault != Clean ==> result == None && !pc.LookingUp?)
      && (pc.LookingUp? ==>
        && id in w.ops && (result == Some(SubmittedPaid) <==> w.ops[id].authority == Paid)
        && (result == Some(SubmittedUnpaid) <==> w.ops[id].authority == Unpaid) && result != Some(Ambiguous))
      && (!pc.LookingUp? && a.env.fault == Clean ==>
        result == if id in ops && !ops[id].timesOut then ops[id].submission else None)
  {
    AdvancesCall(c, w, a, k);
    assert Step(c, w, a).calls[k].pc.Finalizing? ==> a.Advance? && a.call == k;
    assert Step(c, w, a).ops == OpsAfter(c, w.ops, w.position, w.calls[k].pc, a.env);
    hide Step, InsertReserved, ClaimReserved, ClaimForReconciliation, FinalizeAttempt, FindRow, KeyTaken, Stored;
  }

  /** A reconciliation comes to submit again only from a lookup that found no operation: never while the provider knows one
      as paid, unpaid, unknown or still under way. */
  lemma SubmitsAgainOnlyIfMissing(c: Config, w: World, a: Action, k: nat)
    requires k < |w.calls| && k < |Step(c, w, a).calls|
    requires !w.calls[k].pc.Resubmitting? && Step(c, w, a).calls[k].pc.Resubmitting?
    ensures w.calls[k].pc.LookingUp? && a.Advance? && a.call == k && a.env.fault == Clean
    ensures w.calls[k].pc.id == Step(c, w, a).calls[k].pc.id && w.calls[k].pc.token == Step(c, w, a).calls[k].pc.token
    ensures w.calls[k].pc.id in w.ops ==> w.ops[w.calls[k].pc.id].authority == NotFound
  {
    AdvancesCall(c, w, a, k);
    hide Step, InsertReserved, ClaimReserved, ClaimForReconciliation, FinalizeAttempt, FindRow, KeyTaken;
  }

  /** A failed reconciliation releases its row; then a manual one raises the failure, and one of the background answers
      nothing but the row's status. */
  lemma FailureIsReported(c: Config, w: World, opening: OpeningBalances, call: Call, env: Env)
    requires Consistent(w.db, opening) && call.kind.Reconcile? && call.pc.Recovering? && env.fault == Clean
    requires call.pc.id in w.db.settlements && call.pc.id in w.db.attempts
    ensures NextPc(c, w, call, env) == if call.kind.propagate then Raised(ProviderFailed) else Reading(call.pc.id)
  {
    hide Consistent, FinalizeAttempt;
    FinalizeNeverRefused(w.db, opening, call.pc.id, call.pc.token, None, w.clock);
    Found(w.db, call.pc.id, call.pc.token, None, w.clock);
  }

  lemma Found(db: Db, id: Id, token: int, result: Option<Submission>, now: int)
    requires id in db.settlements && id in db.attempts
    ensures FinalizeAttempt(db, id, token, result, now) != Aborted(SettlementNotFound)
  {
    hide PostEvent;
  }

  /** How calls begin: a request at its lookup, a manual reconciliation at its check, and a claim of the background at its
      lookup, under the token it was handed, with its failures kept to itself. */
  lemma CallsBegin(c: Config, w: World, a: Action, k: nat)
    requires |w.calls| <= k < |Step(c, w, a).calls|
    ensures var call := Step(c, w, a).calls[k];
      && (a.StartCreate? ==> call == Call(Create(a.request), Finding))
      && (a.StartReconcile? ==> call == Call(Reconcile(true), Checking(a.id)))
      && (a.Batch? ==> call.kind == Reconcile(false) && call.pc.LookingUp?)
      && (a.Batch? ==> k - |w.calls| < |a.rows| && call.pc.id == a.rows[k - |w.calls|])
      && (a.Batch? ==> Issue(call.pc.id, call.pc.token, k) in Step(c, w, a).issued)
      && (a.StartCreate? || a.StartReconcile? || a.Batch?)
  {
    hide Changed, IsBatch;
    if a.Batch? && IsBatch(w.db, w.clock, a.limit, a.locked, a.rows) {
      var grants := Grants(c, w.db, w.clock, BatchClaim(a.rows), |w.calls|);
      assert grants[k - |w.calls|] in grants;
    }
  }
}
