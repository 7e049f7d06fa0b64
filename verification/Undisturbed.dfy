/** What an undisturbed call comes to, from its first step to its answer, in any state the service can be in. */
module Undisturbed {
  import opened Options
  import opened Routing
  import opened Fingerprint
  import opened Ledger
  import opened Provider
  import opened Service
  import opened Accounting
  import opened Protocol
  import opened Progress
  import opened Exhaustion

  /** What a caller is told when the provider has this operation for its settlement. */
  predicate ToldOfSubmission(op: Operation, s: Status) {
    && (!op.timesOut && op.submission == Some(SubmittedPaid) ==> s == SUCCESS)
    && (!op.timesOut && op.submission == Some(SubmittedUnpaid) ==> s == FAILED)
    && (op.timesOut || op.submission == Some(Ambiguous) || op.submission == None ==> s == PENDING_RECONCILIATION)
  }

  predicate ToldOfLookup(op: Operation, s: Status) {
    && (op.authority == Paid ==> s == SUCCESS)
    && (op.authority == Unpaid ==> s == FAILED)
  }

  lemma TellsSubmission(ops: Operations, id: Id)
    requires id in ops
    ensures ToldOfSubmission(ops[id], StatusFor(Reply(ops, id)))
  {
  }

  /** The outcome at the provider's next position: in the database `gap` positions may be skipped. */
  ghost function NextAnswer(c: Config, w: World, gap: nat): Operation
    requires Accepts(c, w, gap)
  {
    OutcomeForPosition(c.mode, w.position + (if c.durable then gap else 0)).value
  }

  /** A new request that is funded and meets no fault is answered in six steps, and the answer is what the provider's next
      position says: SUCCESS, FAILED, or pending where it answers ambiguously or times out. */
  lemma UndisturbedCreate(c: Config, w: World, opening: OpeningBalances, id: Id, r: Request, q: RouteQuote, gap: nat)
    returns (end: World, k: nat)
    requires Consistent(w.db, opening) && Fundable(w.db, id, r, q) && id !in w.ops && Accepts(c, w, gap)
    ensures Reaches(c, w, end, 6, gap) && k < |end.calls| && end.calls[k].kind == Create(r)
    ensures end.calls[k].pc.Returned? && end.calls[k].pc.id == id
    ensures id in end.ops && end.ops == w.ops[id := NextAnswer(c, w, gap)]
    ensures ToldOfSubmission(end.ops[id], end.calls[k].pc.status)
  {
    hide Consistent, Fundable, NewSettlement, Reaches, Step, OutcomeForPosition, StatusFor, Reply, ToldOfSubmission;
    var claiming: World;
    claiming, k := CreateToClaiming(c, w, opening, id, r, q, gap);
    assert claiming.db.settlements[id].status == RESERVED by { IsReserved(r, q); }
    end := PayoutFromClaiming(c, claiming, opening, k, Create(r), id, gap);
    ReachesTrans(c, w, claiming, end, 3, 3, gap);
    TellsSubmission(end.ops, id);
  }

  lemma IsReserved(r: Request, q: RouteQuote)
    ensures NewSettlement(r, q).status == RESERVED
  {
    hide QuotedAmount, Stored8, Units;
  }

  /** A manual reconciliation after the lease is answered in six steps with what the provider has decided. */
  lemma UndisturbedReconcile(c: Config, w: World, opening: OpeningBalances, id: Id, gap: nat) returns (end: World, k: nat)
    requires Consistent(w.db, opening) && Unended(w, id) && id in w.ops && Decided(w.ops[id])
    ensures Reaches(c, w, end, 6, gap) && k < |end.calls| && end.calls[k].kind == Reconcile(true)
    ensures end.calls[k].pc.Returned? && end.calls[k].pc.id == id && ToldOfLookup(w.ops[id], end.calls[k].pc.status)
  {
    hide Consistent, Step, Finalizable, Reaches, Ended;
    var claimed: World, token: int;
    claimed, k, token := ClaimAfterLease(c, w, opening, id, gap);
    end := EndFromLookup(c, claimed, opening, k, Reconcile(true), id, token, gap);
    ReachesTrans(c, w, claimed, end, 4, 2, gap);
  }

  /** Where the provider never heard of the settlement, a manual reconciliation submits it, under the settlement's own
      identifier, and is answered with what the provider's next position says. */
  lemma UndisturbedResubmission(c: Config, w: World, opening: OpeningBalances, id: Id, gap: nat) returns (end: World, k: nat)
    requires Consistent(w.db, opening) && Unended(w, id) && id !in w.ops && Accepts(c, w, gap)
    ensures Reaches(c, w, end, 7, gap) && k < |end.calls| && end.calls[k].kind == Reconcile(true)
    ensures end.calls[k].pc.Returned? && end.calls[k].pc.id == id
    ensures id in end.ops && end.ops == w.ops[id := NextAnswer(c, w, gap)]
    ensures ToldOfSubmission(end.ops[id], end.calls[k].pc.status)
  {
    hide Consistent, Step, Finalizable, Reaches, OutcomeForPosition, StatusFor, Reply, ToldOfSubmission;
    var claimed: World, token: int;
    claimed, k, token := ClaimAfterLease(c, w, opening, id, gap);
    end := SubmitFromLookup(c, claimed, opening, k, Reconcile(true), id, token, gap);
    ReachesTrans(c, w, claimed, end, 4, 3, gap);
    TellsSubmission(end.ops, id);
  }
}
