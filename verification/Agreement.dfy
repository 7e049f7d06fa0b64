/** What the ledger says about a payout is what the provider says. */
module Agreement {
  import opened Options
  import opened Sums
  import opened Ledger
  import opened Provider
  import opened Service
  import opened Accounting
  import opened Protocol

  // ---------------------------------------------------------------- operations are written once

  ghost predicate OpsKept(before: Operations, after: Operations) {
    forall id | id in before :: id in after && after[id] == before[id]
  }

  /** However often submissions run, a stored operation never changes. */
  lemma {:induction false} OperationsAreWriteOnce(c: Config, w: World, actions: seq<Action>)
    ensures OpsKept(w.ops, Run(c, w, actions).ops)
  {
    hide Changed, CallsAfter, Grants, ChangeOf;
    if actions != [] {
      OperationsAreWriteOnce(c, w, actions[..|actions| - 1]);
    }
  }

  // ---------------------------------------------------------------- the invariant

  /** A definitive result in a call's hands is the provider's authority. */
  ghost predicate ResultOk(ops: Operations, id: Id, result: Option<Submission>) {
    && (result == Some(SubmittedPaid) ==> LookupOf(ops, id) == Paid)
    && (result == Some(SubmittedUnpaid) ==> LookupOf(ops, id) == Unpaid)
  }

  ghost predicate PcAgrees(ops: Operations, pc: Pc) {
    pc.Finalizing? ==> ResultOk(ops, pc.id, pc.result)
  }

  ghost predicate StatusAgrees(ops: Operations, id: Id, status: Status) {
    && (status == SUCCESS ==> LookupOf(ops, id) == Paid)
    && (status == FAILED ==> LookupOf(ops, id) == Unpaid)
  }

  ghost predicate AllFaithful(ops: Operations) { forall id | id in ops :: Faithful(ops[id]) }

  ghost predicate CallsAgree(ops: Operations, calls: seq<Call>) {
    forall k | 0 <= k < |calls| :: PcAgrees(ops, calls[k].pc)
  }

  ghost predicate RowsAgree(ops: Operations, settlements: Settlements) {
    forall id | id in settlements :: StatusAgrees(ops, id, settlements[id].status)
  }

  ghost predicate Agreed(w: World) {
    AllFaithful(w.ops) && CallsAgree(w.ops, w.calls) && RowsAgree(w.ops, w.db.settlements)
  }

  lemma StoredFaithful(ops: Operations, m: Mode, id: Id, position: nat)
    requires Definitive(m) && AllFaithful(ops)
    ensures AllFaithful(Stored(ops, m, id, position)) && OpsKept(ops, Stored(ops, m, id, position))
    ensures ResultOk(Stored(ops, m, id, position), id, Reply(Stored(ops, m, id, position), id))
  {
  }

  lemma NextPcAgrees(c: Config, w: World, call: Call, env: Env)
    requires Definitive(c.mode) && AllFaithful(w.ops) && PcAgrees(w.ops, call.pc)
    ensures PcAgrees(OpsAfter(c, w.ops, w.position, call.pc, env), NextPc(c, w, call, env))
  {
    hide Definitive;
    if call.pc.Initiating? || call.pc.Resubmitting? {
      StoredFaithful(w.ops, c.mode, call.pc.id, Taken(c, w.position, env));
    }
  }

  /** A change of the tables ends a settlement only by applying a result. */
  lemma ChangedStatuses(c: Config, db: Db, clock: int, change: Change, id: Id)
    requires id in Changed(c, db, clock, change).settlements
    ensures var status := Changed(c, db, clock, change).settlements[id].status;
      Open(status)
      || (id in db.settlements && db.settlements[id].status == status)
      || (change.Finalization? && change.id == id && status == StatusFor(change.result))
  {
    if change.BatchClaim? {
      ClaimRowsFrame(db, change.rows, clock, c.leaseTime);
    }
  }

  lemma AttemptedResult(w: World, a: Action, ops: Operations)
    requires CallsAgree(w.ops, w.calls) && OpsKept(w.ops, ops)
    ensures ChangeOf(w, a).Finalization? ==> ResultOk(ops, ChangeOf(w, a).id, ChangeOf(w, a).result)
  {
    if a.Advance? && a.call < |w.calls| {
      assert PcAgrees(w.ops, w.calls[a.call].pc);
    }
  }

  lemma StepAgreed(c: Config, w: World, a: Action)
    requires Definitive(c.mode) && Agreed(w)
    ensures Agreed(Step(c, w, a))
  {
    hide Definitive, Changed, NextPc, IsBatch, Grants, ResultOk, Faithful, StatusAgrees;
    var next := Step(c, w, a);
    assert AllFaithful(next.ops) && OpsKept(w.ops, next.ops) by {
      if a.Advance? && a.call < |w.calls| {
        var pc := w.calls[a.call].pc;
        if pc.Initiating? || pc.Resubmitting? {
          StoredFaithful(w.ops, c.mode, pc.id, Taken(c, w.position, a.env));
        }
      }
    }
    assert CallsAgree(next.ops, next.calls) by { StepCallsAgree(c, w, a); }
    AttemptedResult(w, a, next.ops);
    forall id | id in next.db.settlements ensures StatusAgrees(next.ops, id, next.db.settlements[id].status) {
      StepStatusAgrees(c, w, a, next.ops, id);
    }
  }

  lemma StepStatusAgrees(c: Config, w: World, a: Action, ops: Operations, id: Id)
    requires RowsAgree(w.ops, w.db.settlements) && OpsKept(w.ops, ops)
    requires ChangeOf(w, a).Finalization? ==> ResultOk(ops, ChangeOf(w, a).id, ChangeOf(w, a).result)
    requires id in Step(c, w, a).db.settlements
    ensures StatusAgrees(ops, id, Step(c, w, a).db.settlements[id].status)
  {
    hide Changed, ChangeOf, IsBatch, Grants;
    ChangedStatuses(c, w.db, w.clock, ChangeOf(w, a), id);
    if id in w.db.settlements {
      assert StatusAgrees(w.ops, id, w.db.settlements[id].status);
    }
  }

  lemma PcAgreesKept(before: Operations, after: Operations, pc: Pc)
    requires PcAgrees(before, pc) && OpsKept(before, after)
    ensures PcAgrees(after, pc)
  {
  }

  lemma StepCallsAgree(c: Config, w: World, a: Action)
    requires Definitive(c.mode) && AllFaithful(w.ops) && CallsAgree(w.ops, w.calls)
    requires OpsKept(w.ops, Step(c, w, a).ops)
    ensures CallsAgree(Step(c, w, a).ops, Step(c, w, a).calls)
  {
    hide Definitive, Changed, NextPc, IsBatch, Grants, PcAgrees, OpsKept, Faithful, OpsAfter;
    var next := Step(c, w, a);
    forall k | 0 <= k < |next.calls| ensures PcAgrees(next.ops, next.calls[k].pc) {
      if a.Advance? && k == a.call {
        assert PcAgrees(w.ops, w.calls[k].pc);
        NextPcAgrees(c, w, w.calls[k], a.env);
      } else if k < |w.calls| {
        PcAgreesKept(w.ops, next.ops, w.calls[k].pc);
      } else {
        FreshAgrees(c, w, a, k);
      }
    }
  }

  lemma FreshAgrees(c: Config, w: World, a: Action, k: nat)
    requires |w.calls| <= k < |Step(c, w, a).calls|
    ensures PcAgrees(Step(c, w, a).ops, Step(c, w, a).calls[k].pc)
  {
  }

  lemma {:induction false} AlwaysAgreed(c: Config, w: World, actions: seq<Action>)
    requires Definitive(c.mode) && Agreed(w)
    ensures Agreed(Run(c, w, actions))
  {
    hide Definitive, Agreed, Step;
    if actions != [] {
      AlwaysAgreed(c, w, actions[..|actions| - 1]);
      StepAgreed(c, Run(c, w, actions[..|actions| - 1]), actions[|actions| - 1]);
    }
  }

  // ---------------------------------------------------------------- counting journals

  ghost function JournalsOf(journals: seq<Journal>, id: Id, event: Event): set<nat> {
    set j: nat | j < |journals| && journals[j].settlement == Some(id) && journals[j].event == event
  }

  lemma EventCount(journals: seq<Journal>, id: Id, event: Event)
    requires UniqueEvents(journals)
    ensures |JournalsOf(journals, id, event)| == if HasEvent(journals, id, event) then 1 else 0
  {
    var s := JournalsOf(journals, id, event);
    if HasEvent(journals, id, event) {
      var j: nat :| j < |journals| && journals[j].settlement == Some(id) && journals[j].event == event;
      assert s == {j};
    } else {
      assert s == {};
    }
  }

  /** The journals of a settlement, counted: always one RESERVE, and one CONSUME or RELEASE as it ended. */
  lemma JournalCounts(db: Db, opening: OpeningBalances, id: Id)
    requires Consistent(db, opening) && id in db.settlements
    ensures var journals, status := db.books.journals, db.settlements[id].status;
      && |JournalsOf(journals, id, Reserve)| == 1
      && |JournalsOf(journals, id, Consume)| == (if status == SUCCESS then 1 else 0)
      && |JournalsOf(journals, id, Release)| == (if status == FAILED then 1 else 0)
  {
    var journals := db.books.journals;
    EventCount(journals, id, Reserve);
    EventCount(journals, id, Consume);
    EventCount(journals, id, Release);
    hide Balanced, Tracked, UniqueKeys, HasEvent, UniqueEvents, WellPosted;
    assert Expected(db.settlements, id, Reserve);
    assert Expected(db.settlements, id, Consume) <==> db.settlements[id].status == SUCCESS;
    assert Expected(db.settlements, id, Release) <==> db.settlements[id].status == FAILED;
  }

  lemma InitialFacts(w: World, opening: OpeningBalances)
    requires Initial(w, opening)
    ensures Agreed(w) && Consistent(w.db, opening)
  {
    hide Consistent;
  }

  lemma RowAgrees(w: World, id: Id)
    requires Agreed(w) && id in w.db.settlements
    ensures w.db.settlements[id].status == SUCCESS ==> id in w.ops && w.ops[id].authority == Paid
    ensures w.db.settlements[id].status == FAILED ==> id in w.ops && w.ops[id].authority == Unpaid
  {
    hide AllFaithful, CallsAgree;
    assert StatusAgrees(w.ops, id, w.db.settlements[id].status);
  }

  lemma OmnibusDropped(db: Db, opening: OpeningBalances)
    requires Consistent(db, opening)
    ensures OMNIBUS_USD in db.books.accounts
    ensures db.books.accounts[OMNIBUS_USD].balance == opening.omnibus - Total(db.settlements, PaidWeight())
  {
    hide Journaled, Tracked, UniqueKeys, BooksSound, OwnersMatch, Chart, RowsOwned;
  }

  /** Exactly-once agreement over all interleavings, for a provider whose definitive submissions equal its
      authority: SUCCESS means the provider's operation is paid and consumed exactly once, FAILED means it is
      unpaid and released exactly once, and the Omnibus account has dropped by the successful amounts. */
  lemma TerminalAgreesWithProvider(c: Config, w: World, opening: OpeningBalances, actions: seq<Action>, id: Id)
    requires Definitive(c.mode) && Initial(w, opening)
    requires id in Run(c, w, actions).db.settlements
    ensures var end := Run(c, w, actions);
      var journals, status := end.db.books.journals, end.db.settlements[id].status;
      && (status == SUCCESS ==> id in end.ops && end.ops[id].authority == Paid)
      && (status == FAILED ==> id in end.ops && end.ops[id].authority == Unpaid)
      && |JournalsOf(journals, id, Reserve)| == 1
      && |JournalsOf(journals, id, Consume)| == (if status == SUCCESS then 1 else 0)
      && |JournalsOf(journals, id, Release)| == (if status == FAILED then 1 else 0)
      && OMNIBUS_USD in end.db.books.accounts
      && end.db.books.accounts[OMNIBUS_USD].balance == opening.omnibus - Total(end.db.settlements, PaidWeight())
  {
    hide Run, Agreed, Consistent, Definitive, Journaled, Tracked, UniqueKeys, BooksSound, OwnersMatch, Chart, RowsOwned, JournalsOf, Initial;
    InitialFacts(w, opening);
    AlwaysAgreed(c, w, actions);
    AlwaysConsistent(c, w, opening, actions);
    var end := Run(c, w, actions);
    JournalCounts(end.db, opening, id);
    RowAgrees(end, id);
    OmnibusDropped(end.db, opening);
  }
}
