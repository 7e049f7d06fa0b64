/** The service as a concurrent system: any number of calls, each advancing one transaction or one provider
    exchange at a time, in any interleaving. A call that is never advanced again has stalled or crashed. */
module Protocol {
  import opened Options
  import opened Routing
  import opened Sums
  import opened Ledger
  import opened Provider
  import opened Service
  import opened Accounting

  /** The provider's configuration, whether it keeps its operations in the database, and the length of a lease. */
  datatype Config = Config(mode: Mode, durable: bool, leaseTime: int)

  datatype CallError = IdempotencyConflict | NoRoute | WinnerMissing | ConnectionLost | ProviderFailed | Database(error: TxError)

  /** A `create` for a request, or the rest of a reconciliation, manual (errors propagate) or from the batch. */
  datatype Kind = Create(request: Request) | Reconcile(propagate: bool)

  /** What a call does next. */
  datatype Pc =
    | Finding
    | Inserting(quote: RouteQuote)
    | Reloading
    | Claiming(id: Id)
    | Initiating(id: Id, token: int)
    | Checking(id: Id)
    | Reclaiming(id: Id)
    | LookingUp(id: Id, token: int)
    | Resubmitting(id: Id, token: int)
    | Finalizing(id: Id, token: int, result: Option<Submission>)
    | Recovering(id: Id, token: int)
    | Reading(id: Id)
    | Returned(id: Id, status: Status)
    | Raised(error: CallError)

  datatype Call = Call(kind: Kind, pc: Pc)

  /** A token handed out, to which call. */
  datatype Issue = Issue(id: Id, token: int, call: nat)

  /** The tables, the provider's operations and next position, the clock, the calls and the tokens handed out. */
  datatype World = World(db: Db, ops: Operations, position: nat, clock: int, calls: seq<Call>, issued: seq<Issue>)

  /** A step may run clean, or fail to reach the caller before or after it took effect. */
  datatype Fault = Clean | LostBefore | LostAfter

  /** What the environment decides in a step: the fault, a generated id, the published quote, and how many
      positions a database sequence skips before the next one it hands out. */
  datatype Env = Env(fault: Fault, freshId: Id, quote: Option<RouteQuote>, skipped: nat)

  datatype Action =
    | StartCreate(request: Request)
    | StartReconcile(id: Id)
    | Batch(limit: nat, locked: set<Id>, rows: seq<Id>)
    | Tick(elapsed: nat)
    | Advance(call: nat, env: Env)

  // ---------------------------------------------------------------- changes of the tables

  datatype Change =
    | NoChange
    | Insertion(id: Id, request: Request, quote: RouteQuote)
    | FirstClaim(id: Id)
    | LaterClaim(id: Id)
    | BatchClaim(rows: seq<Id>)
    | Finalization(id: Id, token: int, result: Option<Submission>)

  function DbOf<T>(db: Db, tx: Tx<T>): Db { if tx.Committed? then tx.db else db }

  function Changed(c: Config, db: Db, clock: int, change: Change): Db {
    match change
    case NoChange => db
    case Insertion(id, r, q) => DbOf(db, InsertReserved(db, id, r, q))
    case FirstClaim(id) => DbOf(db, ClaimReserved(db, id, clock, c.leaseTime))
    case LaterClaim(id) => DbOf(db, ClaimForReconciliation(db, id, false, clock, c.leaseTime))
    case BatchClaim(rows) => ClaimRows(db, rows, clock, c.leaseTime)
    case Finalization(id, token, result) => DbOf(db, FinalizeAttempt(db, id, token, result, clock))
  }

  function GrantOf(call: nat, id: Id, tx: Tx<Option<int>>): seq<Issue> {
    if tx.Committed? && tx.value.Some? then [Issue(id, tx.value.value, call)] else []
  }

  /** The tokens a change hands out. */
  function Grants(c: Config, db: Db, clock: int, change: Change, call: nat): seq<Issue> {
    match change
    case FirstClaim(id) => GrantOf(call, id, ClaimReserved(db, id, clock, c.leaseTime))
    case LaterClaim(id) => GrantOf(call, id, ClaimForReconciliation(db, id, false, clock, c.leaseTime))
    case BatchClaim(rows) =>
      var after := ClaimRows(db, rows, clock, c.leaseTime);
      seq(|rows|, i requires 0 <= i < |rows| =>
        Issue(rows[i], if rows[i] in after.attempts then after.attempts[rows[i]].token else 0, call + i))
    case _ => []
  }

  // ---------------------------------------------------------------- one call

  ghost function FindRow(db: Db, owner: string, key: string): Option<Id> {
    if KeyTaken(db, owner, key) then
      var id :| id in db.settlements && HasKey(db, id, owner, key);
      Some(id)
    else None
  }

  /** Replay of an existing settlement: conflict, answer at once, or resume a reserved one. */
  function Replay(db: Db, r: Request, id: Id): Pc
    requires id in db.settlements
  {
    var s := db.settlements[id];
    if s.fingerprint != FingerprintOf(r) then Raised(IdempotencyConflict)
    else if s.status != RESERVED then Returned(id, s.status)
    else Claiming(id)
  }

  function ReadPc(db: Db, id: Id): Pc {
    if id in db.settlements then Returned(id, db.settlements[id].status) else Raised(Database(SettlementNotFound))
  }

  function ClaimPc(id: Id, tx: Tx<Option<int>>, won: int -> Pc): Pc {
    match tx
    case Aborted(e) => Raised(Database(e))
    case Committed(_, token) => if token.Some? then won(token.value) else Reading(id)
  }

  /** The change of the tables that a call attempts at its present place. */
  function Attempted(call: Call, env: Env): Change {
    match call.pc
    case Inserting(q) => if call.kind.Create? then Insertion(env.freshId, call.kind.request, q) else NoChange
    case Claiming(id) => FirstClaim(id)
    case Reclaiming(id) => LaterClaim(id)
    case Finalizing(id, token, result) => Finalization(id, token, result)
    case Recovering(id, token) => Finalization(id, token, None)
    case _ => NoChange
  }

  predicate Submits(pc: Pc, env: Env) { (pc.Initiating? || pc.Resubmitting?) && env.fault != LostBefore }

  /** The position a submission takes: the next one, or a later one of a sequence with gaps. */
  function Taken(c: Config, position: nat, env: Env): nat { if c.durable then position + env.skipped else position }

  function OpsAfter(c: Config, ops: Operations, position: nat, pc: Pc, env: Env): Operations {
    if Submits(pc, env) then Stored(ops, c.mode, pc.id, Taken(c, position, env)) else ops
  }

  function NextPosition(c: Config, ops: Operations, position: nat, pc: Pc, env: Env): nat {
    if Submits(pc, env) then PositionAfter(c.durable, ops, c.mode, pc.id, Taken(c, position, env)) else position
  }

  /** Where a finalization goes when it did not commit cleanly. */
  function FinalizeFailed(call: Call, id: Id, token: int, e: CallError): Pc {
    if call.kind.Create? then Raised(e) else Recovering(id, token)
  }

  function InsertPc(id: Id, tx: Tx<()>): Pc {
    match tx
    case Committed(_, _) => Claiming(id)
    case Aborted(e) => if e == IdempotencyViolation then Reloading else Raised(Database(e))
  }

  function LookupPc(id: Id, token: int, found: Lookup): Pc {
    match found
    case Paid => Finalizing(id, token, Some(SubmittedPaid))
    case Unpaid => Finalizing(id, token, Some(SubmittedUnpaid))
    case NotFound => Resubmitting(id, token)
    case _ => Finalizing(id, token, None)
  }

  function FinalizePc(call: Call, id: Id, token: int, tx: Tx<Status>): Pc {
    match tx
    case Committed(_, status) => Returned(id, status)
    case Aborted(e) => if e == StaleAttemptToken then Reading(id) else FinalizeFailed(call, id, token, Database(e))
  }

  ghost function NextPc(c: Config, w: World, call: Call, env: Env): Pc {
    var db, lost := w.db, env.fault != Clean;
    match call.pc
    case Finding =>
      if lost || !call.kind.Create? then Raised(ConnectionLost)
      else
        var r := call.kind.request;
        var found := FindRow(db, r.owner, r.key);
        if found.Some? then Replay(db, r, found.value)
        else if env.quote.None? then Raised(NoRoute)
        else Inserting(env.quote.value)
    case Inserting(q) =>
      if lost || !call.kind.Create? then Raised(ConnectionLost)
      else InsertPc(env.freshId, InsertReserved(db, env.freshId, call.kind.request, q))
    case Reloading =>
      if lost || !call.kind.Create? then Raised(ConnectionLost)
      else
        var r := call.kind.request;
        var winner := FindRow(db, r.owner, r.key);
        if winner.Some? then Replay(db, r, winner.value) else Raised(WinnerMissing)
    case Claiming(id) =>
      if lost then Raised(ConnectionLost)
      else ClaimPc(id, ClaimReserved(db, id, w.clock, c.leaseTime), token => Initiating(id, token))
    case Initiating(id, token) =>
      Finalizing(id, token, if lost then None else Reply(OpsAfter(c, w.ops, w.position, call.pc, env), id))
    case Checking(id) =>
      if lost then Raised(ConnectionLost)
      else if id in db.settlements && InPayout(db.settlements[id].status) then Reclaiming(id)
      else ReadPc(db, id)
    case Reclaiming(id) =>
      if lost then Raised(ConnectionLost)
      else ClaimPc(id, ClaimForReconciliation(db, id, false, w.clock, c.leaseTime), token => LookingUp(id, token))
    case LookingUp(id, token) =>
      if lost then Recovering(id, token) else LookupPc(id, token, LookupOf(w.ops, id))
    case Resubmitting(id, token) =>
      Finalizing(id, token, if lost then None else Reply(OpsAfter(c, w.ops, w.position, call.pc, env), id))
    case Finalizing(id, token, result) =>
      if lost then FinalizeFailed(call, id, token, ConnectionLost)
      else FinalizePc(call, id, token, FinalizeAttempt(db, id, token, result, w.clock))
    case Recovering(id, token) =>
      if lost then Raised(ConnectionLost)
      else
        var tx := FinalizeAttempt(db, id, token, None, w.clock);
        if tx.Aborted? && tx.error != StaleAttemptToken then Raised(Database(tx.error))
        else if call.kind.Reconcile? && call.kind.propagate then Raised(ProviderFailed)
        else Reading(id)
    case Reading(id) => if lost then Raised(ConnectionLost) else ReadPc(db, id)
    case Returned(_, _) => call.pc
    case Raised(_) => call.pc
  }

  // ---------------------------------------------------------------- the system

  /** The change a step makes, and the index of the call that makes it. */
  ghost function ChangeOf(w: World, a: Action): Change {
    match a
    case Batch(limit, locked, rows) => if IsBatch(w.db, w.clock, limit, locked, rows) then BatchClaim(rows) else NoChange
    case Advance(i, env) =>
      if i < |w.calls| && env.fault != LostBefore then Attempted(w.calls[i], env) else NoChange
    case _ => NoChange
  }

  function CallOf(w: World, a: Action): nat { if a.Advance? then a.call else |w.calls| }

  ghost function CallsAfter(c: Config, w: World, a: Action): seq<Call> {
    match a
    case StartCreate(r) => w.calls + [Call(Create(r), Finding)]
    case StartReconcile(id) => w.calls + [Call(Reconcile(true), Checking(id))]
    case Batch(limit, locked, rows) =>
      if IsBatch(w.db, w.clock, limit, locked, rows) then
        var grants := Grants(c, w.db, w.clock, BatchClaim(rows), |w.calls|);
        w.calls + seq(|grants|, i requires 0 <= i < |grants| => Call(Reconcile(false), LookingUp(grants[i].id, grants[i].token)))
      else w.calls
    case Tick(_) => w.calls
    case Advance(i, env) =>
      if i < |w.calls| then w.calls[i := w.calls[i].(pc := NextPc(c, w, w.calls[i], env))] else w.calls
  }

  ghost function Step(c: Config, w: World, a: Action): World {
    var change := ChangeOf(w, a);
    World(
      Changed(c, w.db, w.clock, change),
      if a.Advance? && a.call < |w.calls| then OpsAfter(c, w.ops, w.position, w.calls[a.call].pc, a.env) else w.ops,
      if a.Advance? && a.call < |w.calls| then NextPosition(c, w.ops, w.position, w.calls[a.call].pc, a.env) else w.position,
      if a.Tick? then w.clock + a.elapsed else w.clock,
      CallsAfter(c, w, a),
      w.issued + Grants(c, w.db, w.clock, change, CallOf(w, a)))
  }

  ghost function Run(c: Config, w: World, actions: seq<Action>): World {
    if actions == [] then w
    else Step(c, Run(c, w, actions[..|actions| - 1]), actions[|actions| - 1])
  }

  lemma {:induction false} RunConcat(c: Config, w: World, a: seq<Action>, b: seq<Action>)
    ensures Run(c, w, a + b) == Run(c, Run(c, w, a), b)
  {
    if b == [] {
      assert a + b == a;
    } else {
      assert (a + b)[..|a + b| - 1] == a + b[..|b| - 1];
      RunConcat(c, w, a, b[..|b| - 1]);
    }
  }

  /** Before any settlement: charted accounts with sound opening entries, an unused provider, and nobody calling. */
  ghost predicate Initial(w: World, opening: OpeningBalances) {
    && Consistent(w.db, opening)
    && w.db.settlements == map[] && w.db.attempts == map[]
    && w.ops == map[] && w.position == 0 && w.calls == [] && w.issued == []
  }

  // ---------------------------------------------------------------- accounting over all runs

  lemma ChangedConsistent(c: Config, db: Db, opening: OpeningBalances, clock: int, change: Change)
    requires Consistent(db, opening)
    requires change.BatchClaim? ==> forall i | 0 <= i < |change.rows| ::
      change.rows[i] in db.settlements && InPayout(db.settlements[change.rows[i]].status)
    ensures Consistent(Changed(c, db, clock, change), opening)
  {
    hide Consistent, InsertReserved, ClaimReserved, ClaimForReconciliation, FinalizeAttempt;
    match change
    case NoChange =>
    case Insertion(id, r, q) =>
      if InsertReserved(db, id, r, q).Committed? { InsertConsistent(db, opening, id, r, q); }
    case FirstClaim(id) =>
      if ClaimReserved(db, id, clock, c.leaseTime).Committed? { ClaimReservedConsistent(db, opening, id, clock, c.leaseTime); }
    case LaterClaim(id) =>
      if ClaimForReconciliation(db, id, false, clock, c.leaseTime).Committed? {
        ClaimForReconciliationConsistent(db, opening, id, false, clock, c.leaseTime);
      }
    case BatchClaim(rows) => ClaimRowsConsistent(db, opening, rows, clock, c.leaseTime);
    case Finalization(id, token, result) =>
      if FinalizeAttempt(db, id, token, result, clock).Committed? { FinalizeConsistent(db, opening, id, token, result, clock); }
  }

  lemma BatchInPayout(w: World, a: Action)
    ensures ChangeOf(w, a).BatchClaim? ==> forall i | 0 <= i < |ChangeOf(w, a).rows| ::
      Due(w.db, ChangeOf(w, a).rows[i], w.clock)
  {
  }

  /** In every reachable state of every interleaving the tables are consistent: each owner's reserved balance is
      the sum of the open settlements, the available balance is the opening less everything not failed,
      the Omnibus balance equals all customer balances, and the books pass their audit. */
  lemma {:induction false} AlwaysConsistent(c: Config, w: World, opening: OpeningBalances, actions: seq<Action>)
    requires Consistent(w.db, opening)
    ensures Consistent(Run(c, w, actions).db, opening)
  {
    hide Consistent, Changed, IsBatch;
    if actions != [] {
      var before, a := Run(c, w, actions[..|actions| - 1]), actions[|actions| - 1];
      AlwaysConsistent(c, w, opening, actions[..|actions| - 1]);
      BatchInPayout(before, a);
      ChangedConsistent(c, before.db, opening, before.clock, ChangeOf(before, a));
    }
  }

  /** The same in plain terms, for every owner and for any finalization that may come next, late or stale ones
      included: it commits, or its row is missing, or its token is stale; the ledger never refuses it. */
  lemma EveryStateBalances(c: Config, w: World, opening: OpeningBalances, actions: seq<Action>, o: string)
    requires Initial(w, opening) && o in opening.owners
    ensures var db := Run(c, w, actions).db;
      && AvailableOf(o) in db.books.accounts && ReservedOf(o) in db.books.accounts && OMNIBUS_USD in db.books.accounts
      && db.books.accounts[ReservedOf(o)].balance == Total(db.settlements, OpenWeight(o))
      && db.books.accounts[AvailableOf(o)].balance == opening.owners[o] - Total(db.settlements, HeldWeight(o))
      && db.books.accounts[OMNIBUS_USD].balance == Total(db.books.accounts, LiabilityWeight())
      && db.books.accounts[OMNIBUS_USD].balance == opening.omnibus - Total(db.settlements, PaidWeight())
      && Sound(db.books)
    ensures forall id, token, result, now ::
      var tx := FinalizeAttempt(Run(c, w, actions).db, id, token, result, now);
      tx.Committed? || tx.error == SettlementNotFound || tx.error == StaleAttemptToken
  {
    AlwaysConsistent(c, w, opening, actions);
    hide Run, FinalizeAttempt, Sound, Chart, Initial;
    var db := Run(c, w, actions).db;
    assert OwnerBalances(db.books.accounts, db.settlements, opening, o);
    forall id, token, result, now
      ensures var tx := FinalizeAttempt(db, id, token, result, now);
        tx.Committed? || tx.error == SettlementNotFound || tx.error == StaleAttemptToken
    {
      FinalizeNeverRefused(db, opening, id, token, result, now);
    }
  }
}
