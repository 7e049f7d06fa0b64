/** The mock payout provider: write-once operations keyed by settlement (app/provider.py). */
module Provider {
  import opened Options
  import opened Ledger

  /** What a submission answers, when it answers at all. */
  datatype Submission = SubmittedPaid | SubmittedUnpaid | Ambiguous

  datatype Lookup = Paid | Unpaid | Unknown | NotFound | Processing | Unavailable

  datatype Operation = Operation(submission: Option<Submission>, authority: Lookup, timesOut: bool)

  datatype Mode = Mode(loadMode: bool, outcomes: Option<seq<Lookup>>, timeoutLookup: Lookup)

  type Operations = map<Id, Operation>

  function AmbiguousAuthority(position: nat): Lookup {
    if position % 2 == 0 then Paid else Unpaid
  }

  predicate Scripted(m: Mode) { !m.loadMode && m.outcomes.Some? && m.outcomes.value != [] }

  /** The outcome of the operation at a position; none where the load provider refuses a further operation. */
  function OutcomeForPosition(m: Mode, position: nat): Option<Operation> {
    if m.loadMode then
      if position < 700 then Some(Operation(Some(SubmittedPaid), Paid, false))
      else if position < 850 then Some(Operation(Some(Ambiguous), AmbiguousAuthority(position), false))
      else if position < 1000 then Some(Operation(None, AmbiguousAuthority(position), true))
      else None
    else if Scripted(m) then
      var outcome := m.outcomes.value[position % |m.outcomes.value|];
      if outcome == Unknown then Some(Operation(None, m.timeoutLookup, true))
      else Some(Operation(Some(if outcome == Paid then SubmittedPaid else SubmittedUnpaid), outcome, false))
    else
      var p := position % 20;
      if p < 14 then Some(Operation(Some(SubmittedPaid), Paid, false))
      else if p < 17 then Some(Operation(Some(Ambiguous), AmbiguousAuthority(p), false))
      else Some(Operation(None, AmbiguousAuthority(p), true))
  }

  /** The operations after a submission for `id` that would take `position`. */
  function Stored(ops: Operations, m: Mode, id: Id, position: nat): Operations {
    if id in ops || OutcomeForPosition(m, position).None? then ops
    else ops[id := OutcomeForPosition(m, position).value]
  }

  /** The next position after such a submission: in memory the count of operations, in the database an identity
      column that moves on whether or not a row is stored. */
  function PositionAfter(durable: bool, ops: Operations, m: Mode, id: Id, position: nat): nat {
    if !durable && (id in ops || OutcomeForPosition(m, position).None?) then position else position + 1
  }

  /** The answer of a submission that ran to its end; none for a timeout or any other exception. */
  function Reply(ops: Operations, id: Id): Option<Submission> {
    if id in ops && !ops[id].timesOut then ops[id].submission else None
  }

  function LookupOf(ops: Operations, id: Id): Lookup {
    if id in ops then ops[id].authority else NotFound
  }

  // ---------------------------------------------------------------- which configurations keep their word

  ghost predicate Faithful(op: Operation) {
    && (op.submission == Some(SubmittedPaid) ==> op.authority == Paid)
    && (op.submission == Some(SubmittedUnpaid) ==> op.authority == Unpaid)
  }

  ghost predicate Decided(op: Operation) { op.authority == Paid || op.authority == Unpaid }

  /** Every definitive submission of the provider equals its authority. */
  ghost predicate Definitive(m: Mode) {
    forall position: nat :: OutcomeForPosition(m, position).Some? ==> Faithful(OutcomeForPosition(m, position).value)
  }

  /** Every stored operation has a definite authority. */
  ghost predicate Settling(m: Mode) {
    forall position: nat :: OutcomeForPosition(m, position).Some? ==> Decided(OutcomeForPosition(m, position).value)
  }

  lemma ScriptPosition(m: Mode, i: nat)
    requires Scripted(m) && i < |m.outcomes.value|
    ensures OutcomeForPosition(m, i).Some?
    ensures var o, op := m.outcomes.value[i], OutcomeForPosition(m, i).value;
      if o == Unknown then op == Operation(None, m.timeoutLookup, true)
      else op == Operation(Some(if o == Paid then SubmittedPaid else SubmittedUnpaid), o, false)
  {
    assert i % |m.outcomes.value| == i;
  }

  /** Submissions agree with the authority exactly when a script, if there is one, names only PAID, UNPAID and UNKNOWN. */
  lemma DefinitiveIff(m: Mode)
    ensures Definitive(m) <==>
      (Scripted(m) ==> forall o | o in m.outcomes.value :: o == Paid || o == Unpaid || o == Unknown)
  {
    if Scripted(m) && Definitive(m) {
      forall o | o in m.outcomes.value ensures o == Paid || o == Unpaid || o == Unknown {
        var i :| 0 <= i < |m.outcomes.value| && m.outcomes.value[i] == o;
        ScriptPosition(m, i);
        assert Faithful(OutcomeForPosition(m, i).value);
      }
    }
    if Scripted(m) && forall o | o in m.outcomes.value :: o == Paid || o == Unpaid || o == Unknown {
      forall position: nat ensures Faithful(OutcomeForPosition(m, position).value) {
        assert m.outcomes.value[position % |m.outcomes.value|] in m.outcomes.value;
      }
    }
  }

  /** Every operation ends PAID or UNPAID exactly when a script, if there is one, says so of each entry,
      with the timeout answer standing for UNKNOWN. */
  lemma SettlingIff(m: Mode)
    ensures Settling(m) <==>
      (Scripted(m) ==> forall o | o in m.outcomes.value ::
        var a := if o == Unknown then m.timeoutLookup else o; a == Paid || a == Unpaid)
  {
    if Scripted(m) && Settling(m) {
      forall o | o in m.outcomes.value
        ensures var a := if o == Unknown then m.timeoutLookup else o; a == Paid || a == Unpaid
      {
        var i :| 0 <= i < |m.outcomes.value| && m.outcomes.value[i] == o;
        ScriptPosition(m, i);
        assert Decided(OutcomeForPosition(m, i).value);
      }
    }
    if Scripted(m) && forall o | o in m.outcomes.value ::
        var a := if o == Unknown then m.timeoutLookup else o; a == Paid || a == Unpaid {
      forall position: nat ensures Decided(OutcomeForPosition(m, position).value) {
        assert m.outcomes.value[position % |m.outcomes.value|] in m.outcomes.value;
      }
    }
  }

  // ---------------------------------------------------------------- the program, in memory

  class MockPayoutProvider {
    const mode: Mode
    var operations: Operations
    var operationCount: nat

    ghost predicate Valid()
      reads this
    {
      operationCount == |operations|
    }

    constructor (mode: Mode)
      ensures Valid() && this.mode == mode && operations == map[]
    {
      this.mode := mode;
      operations := map[];
      operationCount := 0;
    }

    /** However often it runs, a settlement gets one operation, at the position of its first submission. */
    method Initiate(id: Id) returns (reply: Option<Submission>)
      requires Valid()
      modifies this
      ensures Valid()
      ensures operations == Stored(old(operations), mode, id, old(operationCount))
      ensures operationCount == PositionAfter(false, old(operations), mode, id, old(operationCount))
      ensures reply == Reply(operations, id)
      ensures id in old(operations) ==> operations == old(operations)
    {
      if id !in operations {
        var outcome := OutcomeForPosition(mode, operationCount);
        if outcome.None? {
          return None;
        }
        operations := operations[id := outcome.value];
        operationCount := operationCount + 1;
      }
      var stored := operations[id];
      if stored.timesOut {
        return None;
      }
      reply := stored.submission;
    }

    method LookUp(id: Id) returns (r: Lookup)
      ensures r == LookupOf(operations, id)
    {
      if id in operations {
        return operations[id].authority;
      }
      r := NotFound;
    }
  }

  // ---------------------------------------------------------------- the program, in the database

  /** A row stores a timeout as the word TIMEOUT in place of a submission. */
  datatype OperationRow = OperationRow(ordinal: nat, submission: Option<Submission>, authority: Lookup)

  function RowOf(op: Operation, ordinal: nat): OperationRow {
    OperationRow(ordinal, if op.timesOut then None else op.submission, op.authority)
  }

  function OperationOf(row: OperationRow): Operation {
    Operation(row.submission, row.authority, row.submission.None?)
  }

  /** An outcome read back from its row is the outcome that was stored. */
  lemma RowRoundTrip(m: Mode, position: nat, ordinal: nat)
    requires OutcomeForPosition(m, position).Some?
    ensures OperationOf(RowOf(OutcomeForPosition(m, position).value, ordinal)) == OutcomeForPosition(m, position).value
  {
  }

  class DurablePayoutProvider {
    const mode: Mode
    var rows: map<Id, OperationRow>
    var sequence: nat

    constructor (mode: Mode)
      ensures this.mode == mode && rows == map[] && sequence == 0
    {
      this.mode := mode;
      rows := map[];
      sequence := 0;
    }

    function Contents(): Operations
      reads this
    {
      map id | id in rows :: OperationOf(rows[id])
    }

    /** The identity column hands out an ordinal even when the row is already there or the insert is rolled back,
        so positions may skip; the stored operation does not depend on how often this runs. */
    method Initiate(id: Id) returns (reply: Option<Submission>)
      modifies this
      ensures Contents() == Stored(old(Contents()), mode, id, old(sequence))
      ensures reply == Reply(Contents(), id)
      ensures id in old(rows) ==> rows == old(rows)
      ensures sequence == PositionAfter(true, old(Contents()), mode, id, old(sequence))
    {
      sequence := sequence + 1;
      var ordinal := sequence;
      if id !in rows {
        var outcome := OutcomeForPosition(mode, ordinal - 1);
        if outcome.None? {
          return None;
        }
        RowRoundTrip(mode, ordinal - 1, ordinal);
        rows := rows[id := RowOf(outcome.value, ordinal)];
      }
      reply := rows[id].submission;
    }

    method LookUp(id: Id) returns (r: Lookup)
      ensures r == LookupOf(Contents(), id)
    {
      if id in rows {
        return rows[id].authority;
      }
      r := NotFound;
    }
  }
}
