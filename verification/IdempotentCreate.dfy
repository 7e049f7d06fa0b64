/** Idempotent creation: calls with one (owner, key) all speak of one settlement, and one of them pays out. */
module IdempotentCreate {
  import opened Options
  import opened Routing
  import opened Ledger
  import opened Service
  import opened Accounting
  import opened Protocol
  import opened Fencing

  /** `id` is the settlement of this request. */
  ghost predicate Belongs(db: Db, id: Id, r: Request) {
    HasKey(db, id, r.owner, r.key) && db.settlements[id].fingerprint == FingerprintOf(r)
  }

  /** A settlement with the request's key but another request's fingerprint. */
  ghost predicate Contradicted(db: Db, r: Request) {
    exists id :: HasKey(db, id, r.owner, r.key) && db.settlements[id].fingerprint != FingerprintOf(r)
  }

  /** What is true of a `create` call wherever it is. */
  ghost predicate CreateOk(db: Db, r: Request, pc: Pc) {
    match pc
    case Finding => true
    case Inserting(_) => true
    case Reloading => KeyTaken(db, r.owner, r.key)
    case Claiming(id) => Belongs(db, id, r)
    case Initiating(id, _) => Belongs(db, id, r)
    case Finalizing(id, _, _) => Belongs(db, id, r)
    case Reading(id) => Belongs(db, id, r)
    case Returned(id, _) => Belongs(db, id, r)
    case Raised(e) =>
      && e != WinnerMissing && e != ProviderFailed
      && e != Database(IdempotencyViolation) && e != Database(StaleAttemptToken)
      && (e == IdempotencyConflict ==> Contradicted(db, r))
    case _ => false
  }

  /** A reconciliation never stands at a step of `create`. */
  ghost predicate ReconcileOk(pc: Pc) {
    !(pc.Finding? || pc.Inserting? || pc.Reloading? || pc.Claiming? || pc.Initiating?)
  }

  ghost predicate CallOk(db: Db, call: Call) {
    if call.kind.Create? then CreateOk(db, call.kind.request, call.pc) else ReconcileOk(call.pc)
  }

  ghost predicate CallsOk(w: World) { forall k | 0 <= k < |w.calls| :: CallOk(w.db, w.calls[k]) }

  lemma CreateOkKept(before: Db, after: Db, r: Request, pc: Pc)
    requires CreateOk(before, r, pc) && Kept(before, after)
    ensures CreateOk(after, r, pc)
  {
    if KeyTaken(before, r.owner, r.key) {
      var id :| id in before.settlements && HasKey(before, id, r.owner, r.key);
      assert HasKey(after, id, r.owner, r.key);
    }
    if Contradicted(before, r) {
      var id :| HasKey(before, id, r.owner, r.key) && before.settlements[id].fingerprint != FingerprintOf(r);
      assert HasKey(after, id, r.owner, r.key);
    }
  }

  lemma FoundRow(db: Db, owner: string, key: string)
    ensures FindRow(db, owner, key).Some? <==> KeyTaken(db, owner, key)
    ensures FindRow(db, owner, key).Some? ==> HasKey(db, FindRow(db, owner, key).value, owner, key)
  {
  }

  lemma ReplayOk(db: Db, r: Request, id: Id)
    requires HasKey(db, id, r.owner, r.key)
    ensures CreateOk(db, r, Protocol.Replay(db, r, id))
  {
  }

  lemma InsertionOk(db: Db, id: Id, r: Request, q: RouteQuote)
    requires InsertReserved(db, id, r, q).Committed?
    ensures Belongs(InsertReserved(db, id, r, q).db, id, r)
  {
  }

  lemma CreateStep(c: Config, w: World, call: Call, env: Env)
    requires call.kind.Create? && CreateOk(w.db, call.kind.request, call.pc)
    ensures var change := if env.fault == LostBefore then NoChange else Attempted(call, env);
      CreateOk(Changed(c, w.db, w.clock, change), call.kind.request, NextPc(c, w, call, env))
  {
    hide Kept;
    var r, change := call.kind.request, if env.fault == LostBefore then NoChange else Attempted(call, env);
    var after := Changed(c, w.db, w.clock, change);
    ChangedKept(c, w.db, w.clock, change);
    FoundRow(w.db, r.owner, r.key);
    match call.pc
    case Finding =>
      if FindRow(w.db, r.owner, r.key).Some? {
        ReplayOk(w.db, r, FindRow(w.db, r.owner, r.key).value);
      }
    case Reloading =>
      ReplayOk(w.db, r, FindRow(w.db, r.owner, r.key).value);
    case Inserting(q) =>
      if InsertReserved(w.db, env.freshId, r, q).Committed? {
        InsertionOk(w.db, env.freshId, r, q);
      }
    case _ =>
      CreateOkKept(w.db, after, r, call.pc);
      StaysWithSettlement(c, w, call, env, after);
  }

  /** Past the insertion a call stays with its settlement. */
  lemma StaysWithSettlement(c: Config, w: World, call: Call, env: Env, after: Db)
    requires call.kind.Create? && CreateOk(w.db, call.kind.request, call.pc)
    requires CreateOk(after, call.kind.request, call.pc)
    requires !(call.pc.Finding? || call.pc.Reloading? || call.pc.Inserting?)
    ensures CreateOk(after, call.kind.request, NextPc(c, w, call, env))
  {
  }

  lemma ReconcileStep(c: Config, w: World, call: Call, env: Env)
    requires call.kind.Reconcile? && ReconcileOk(call.pc)
    ensures ReconcileOk(NextPc(c, w, call, env))
  {
  }

  lemma StepCallsOk(c: Config, w: World, a: Action)
    requires CallsOk(w)
    ensures CallsOk(Step(c, w, a))
  {
    hide Kept, CreateOk, ReconcileOk, Changed, NextPc, IsBatch, Grants;
    var next := Step(c, w, a);
    ChangedKept(c, w.db, w.clock, ChangeOf(w, a));
    forall k | 0 <= k < |next.calls| ensures CallOk(next.db, next.calls[k]) {
      if a.Advance? && k == a.call {
        AdvancedOk(c, w, a);
      } else if k < |w.calls| {
        KeptCallOk(w.db, next.db, w.calls[k]);
      } else {
        FreshOk(c, w, a, k);
      }
    }
  }

  lemma AdvancedOk(c: Config, w: World, a: Action)
    requires CallsOk(w) && a.Advance? && a.call < |w.calls|
    ensures CallOk(Step(c, w, a).db, Step(c, w, a).calls[a.call])
  {
    hide CreateOk, ReconcileOk, Changed, NextPc;
    var call := w.calls[a.call];
    assert CallOk(w.db, call);
    if call.kind.Create? {
      CreateStep(c, w, call, a.env);
    } else {
      ReconcileStep(c, w, call, a.env);
    }
  }

  lemma KeptCallOk(before: Db, after: Db, call: Call)
    requires CallOk(before, call) && Kept(before, after)
    ensures CallOk(after, call)
  {
    hide Kept, CreateOk;
    if call.kind.Create? {
      CreateOkKept(before, after, call.kind.request, call.pc);
    }
  }

  lemma FreshOk(c: Config, w: World, a: Action, k: nat)
    requires |w.calls| <= k < |Step(c, w, a).calls|
    ensures CallOk(Step(c, w, a).db, Step(c, w, a).calls[k])
  {
  }

  lemma {:induction false} CallsAlwaysOk(c: Config, w: World, actions: seq<Action>)
    requires CallsOk(w)
    ensures CallsOk(Run(c, w, actions))
  {
    hide CallsOk, Step;
    if actions != [] {
      CallsAlwaysOk(c, w, actions[..|actions| - 1]);
      StepCallsOk(c, Run(c, w, actions[..|actions| - 1]), actions[|actions| - 1]);
    }
  }

  // ---------------------------------------------------------------- who holds tokens

  /** The token a call is working under. */
  function Held(pc: Pc): Option<(Id, int)> {
    match pc
    case Initiating(id, token) => Some((id, token))
    case LookingUp(id, token) => Some((id, token))
    case Resubmitting(id, token) => Some((id, token))
    case Finalizing(id, token, _) => Some((id, token))
    case Recovering(id, token) => Some((id, token))
    case _ => None
  }

  ghost predicate HeldOk(w: World, k: nat)
    requires k < |w.calls|
  {
    Held(w.calls[k].pc).Some? ==>
      Issue(Held(w.calls[k].pc).value.0, Held(w.calls[k].pc).value.1, k) in w.issued
  }

  /** The first token of a settlement goes to a `create`, every later one to a reconciliation. */
  ghost predicate IssueOk(w: World, e: Issue) {
    e.call < |w.calls| && (e.token == 1 <==> w.calls[e.call].kind.Create?)
  }

  ghost predicate Holders(w: World) {
    && (forall k | 0 <= k < |w.calls| :: HeldOk(w, k))
    && (forall e | e in w.issued :: IssueOk(w, e))
  }

  /** A clean claim moves to the step that holds the granted token; no other step begins to hold one. */
  lemma HeldFromGrant(c: Config, w: World, call: Call, env: Env, k: nat)
    requires Held(NextPc(c, w, call, env)).Some?
    ensures Held(NextPc(c, w, call, env)) == Held(call.pc)
      || (var h := Held(NextPc(c, w, call, env)).value;
        Issue(h.0, h.1, k) in Grants(c, w.db, w.clock, if env.fault == LostBefore then NoChange else Attempted(call, env), k))
  {
  }

  lemma AdvanceGrants(c: Config, w: World, call: Call, env: Env, k: nat)
    requires CallOk(w.db, call) && Tracked(w.db.settlements, w.db.attempts)
    ensures forall e | e in Grants(c, w.db, w.clock, Attempted(call, env), k) ::
      e.call == k && (e.token == 1 <==> call.kind.Create?)
  {
  }

  lemma BatchGrants(c: Config, w: World, a: Action)
    requires a.Batch? && IsBatch(w.db, w.clock, a.limit, a.locked, a.rows)
    requires Tracked(w.db.settlements, w.db.attempts)
    ensures var grants := Grants(c, w.db, w.clock, BatchClaim(a.rows), |w.calls|);
      forall i | 0 <= i < |grants| :: grants[i].call == |w.calls| + i && grants[i].token > 1
  {
    BatchDistinct(w.db, w.clock, a.limit, a.locked, a.rows);
    BatchTokens(c, w.db, w.clock, a.rows, |w.calls|);
    var grants := Grants(c, w.db, w.clock, BatchClaim(a.rows), |w.calls|);
    forall i | 0 <= i < |grants| ensures grants[i].token > 1 {
      PositiveToken(w.db, a.rows[i]);
      assert grants[i].token == TokenAt(w.db, grants[i].id) + 1;
    }
  }

  /** Calls are never forgotten and never change their kind. */
  ghost predicate SameKinds(before: seq<Call>, after: seq<Call>) {
    |before| <= |after| && forall k | 0 <= k < |before| :: after[k].kind == before[k].kind
  }

  lemma IssuesKept(w: World, next: World, grants: seq<Issue>)
    requires SameKinds(w.calls, next.calls) && next.issued == w.issued + grants
    requires forall e | e in w.issued :: IssueOk(w, e)
    requires forall i | 0 <= i < |grants| :: IssueOk(next, grants[i])
    ensures forall e | e in next.issued :: IssueOk(next, e)
  {
    forall e | e in next.issued ensures IssueOk(next, e) {
      if e in w.issued {
        assert IssueOk(w, e);
      }
    }
  }

  lemma StepHolders(c: Config, w: World, a: Action)
    requires Holders(w) && CallsOk(w) && Tracked(w.db.settlements, w.db.attempts)
    ensures Holders(Step(c, w, a))
  {
    hide CallOk, Tracked, Changed, NextPc, IsBatch, Grants, Attempted, IssueOk;
    var next := Step(c, w, a);
    var grants := Grants(c, w.db, w.clock, ChangeOf(w, a), CallOf(w, a));
    NoChangeGrants(c, w.db, w.clock, CallOf(w, a));
    if a.Batch? && IsBatch(w.db, w.clock, a.limit, a.locked, a.rows) {
      BatchHolders(c, w, a);
    } else {
      if a.Advance? && a.call < |w.calls| {
        AdvanceHeld(c, w, a);
        AdvanceIssues(c, w, a);
      }
      forall j | 0 <= j < |next.calls| ensures HeldOk(next, j) {
        if j < |w.calls| { assert HeldOk(w, j); }
      }
    }
    IssuesKept(w, next, grants);
  }

  lemma AdvanceIssues(c: Config, w: World, a: Action)
    requires a.Advance? && a.call < |w.calls|
    requires CallOk(w.db, w.calls[a.call]) && Tracked(w.db.settlements, w.db.attempts)
    ensures var grants := Grants(c, w.db, w.clock, ChangeOf(w, a), CallOf(w, a));
      forall i | 0 <= i < |grants| :: IssueOk(Step(c, w, a), grants[i])
  {
    hide CallOk, Tracked, Changed, NextPc, Grants, Attempted;
    NoChangeGrants(c, w.db, w.clock, CallOf(w, a));
    AdvanceGrants(c, w, w.calls[a.call], a.env, a.call);
  }

  lemma NoChangeGrants(c: Config, db: Db, clock: int, call: nat)
    ensures Grants(c, db, clock, NoChange, call) == []
  {
  }

  lemma AdvanceHeld(c: Config, w: World, a: Action)
    requires a.Advance? && a.call < |w.calls| && HeldOk(w, a.call)
    ensures HeldOk(Step(c, w, a), a.call)
  {
    hide NextPc, Grants, Changed, Attempted;
    if Held(Step(c, w, a).calls[a.call].pc).Some? {
      HeldFromGrant(c, w, w.calls[a.call], a.env, a.call);
    }
  }

  lemma BatchHolders(c: Config, w: World, a: Action)
    requires a.Batch? && IsBatch(w.db, w.clock, a.limit, a.locked, a.rows)
    requires Tracked(w.db.settlements, w.db.attempts)
    requires forall k | 0 <= k < |w.calls| :: HeldOk(w, k)
    ensures var next := Step(c, w, a);
      var grants := Grants(c, w.db, w.clock, ChangeOf(w, a), CallOf(w, a));
      && SameKinds(w.calls, next.calls)
      && (forall k | 0 <= k < |next.calls| :: HeldOk(next, k))
      && (forall i | 0 <= i < |grants| :: IssueOk(next, grants[i]))
  {
    hide IsBatch, Changed, Tracked, HeldOk, IssueOk;
    BatchGrants(c, w, a);
    BatchIssues(c, w, a);
    forall k | 0 <= k < |Step(c, w, a).calls| ensures HeldOk(Step(c, w, a), k) {
      BatchHeld(c, w, a, k);
    }
  }

  lemma BatchIssues(c: Config, w: World, a: Action)
    requires a.Batch? && IsBatch(w.db, w.clock, a.limit, a.locked, a.rows)
    requires var grants := Grants(c, w.db, w.clock, BatchClaim(a.rows), |w.calls|);
      forall i | 0 <= i < |grants| :: grants[i].call == |w.calls| + i && grants[i].token > 1
    ensures var grants := Grants(c, w.db, w.clock, ChangeOf(w, a), CallOf(w, a));
      forall i | 0 <= i < |grants| :: IssueOk(Step(c, w, a), grants[i])
  {
    hide IsBatch, Grants, Changed;
  }

  lemma BatchHeld(c: Config, w: World, a: Action, k: nat)
    requires a.Batch? && IsBatch(w.db, w.clock, a.limit, a.locked, a.rows) && k < |Step(c, w, a).calls|
    requires k < |w.calls| ==> HeldOk(w, k)
    requires var grants := Grants(c, w.db, w.clock, BatchClaim(a.rows), |w.calls|);
      forall i | 0 <= i < |grants| :: grants[i].call == |w.calls| + i && grants[i].token > 1
    ensures HeldOk(Step(c, w, a), k)
  {
    hide IsBatch, Grants, Changed;
    var grants := Grants(c, w.db, w.clock, BatchClaim(a.rows), |w.calls|);
    if k >= |w.calls| {
      assert grants[k - |w.calls|] in grants;
    }
  }

  /** The invariant of the calls and the token record. */
  ghost predicate Disciplined(w: World) { CallsOk(w) && Holders(w) && Recorded(w.db, w.issued) }

  lemma {:induction false} AlwaysDisciplined(c: Config, w: World, opening: OpeningBalances, actions: seq<Action>)
    requires Consistent(w.db, opening) && Disciplined(w)
    ensures Disciplined(Run(c, w, actions))
  {
    hide CallsOk, Holders, Recorded, Step, Tracked, Balanced, Journaled, UniqueKeys;
    if actions != [] {
      var init := actions[..|actions| - 1];
      AlwaysDisciplined(c, w, opening, init);
      AlwaysConsistent(c, w, opening, init);
      var before, a := Run(c, w, init), actions[|actions| - 1];
      StepCallsOk(c, before, a);
      StepHolders(c, before, a);
      OneStepRecorded(c, before, a);
    }
  }

  lemma OneStepRecorded(c: Config, w: World, a: Action)
    requires Recorded(w.db, w.issued)
    ensures Recorded(Step(c, w, a).db, Step(c, w, a).issued)
  {
    hide Recorded, NextTokens, Changed, Grants, IsBatch;
    StepTokens(c, w, a);
    RecordedStep(w.db, Step(c, w, a).db, w.issued, Grants(c, w.db, w.clock, ChangeOf(w, a), CallOf(w, a)));
  }

  lemma InitialDisciplined(w: World, opening: OpeningBalances)
    requires Initial(w, opening)
    ensures Consistent(w.db, opening) && Disciplined(w)
  {
  }

  // ---------------------------------------------------------------- main results

  /** Over any interleaving from an initial state, calls with one (owner, key) speak of one settlement: the row is
      unique, every `create` that returned gives its id and matched its request, a conflict is raised only
      against a row of another request, and the winner of a lost insert is always found. */
  lemma CreateIsLinearizable(c: Config, w: World, opening: OpeningBalances, actions: seq<Action>)
    requires Initial(w, opening)
    ensures var end := Run(c, w, actions);
      && (forall k | 0 <= k < |end.calls| && end.calls[k].kind.Create? && end.calls[k].pc.Returned? ::
           Belongs(end.db, end.calls[k].pc.id, end.calls[k].kind.request))
      && (forall j, k | 0 <= j < |end.calls| && 0 <= k < |end.calls|
           && end.calls[j].kind.Create? && end.calls[j].pc.Returned? && end.calls[k].kind.Create? && end.calls[k].pc.Returned?
           && end.calls[j].kind.request.owner == end.calls[k].kind.request.owner
           && end.calls[j].kind.request.key == end.calls[k].kind.request.key ::
           end.calls[j].pc.id == end.calls[k].pc.id
           && FingerprintOf(end.calls[j].kind.request) == FingerprintOf(end.calls[k].kind.request))
      && (forall k | 0 <= k < |end.calls| && end.calls[k].kind.Create? ::
           end.calls[k].pc != Raised(WinnerMissing)
           && (end.calls[k].pc == Raised(IdempotencyConflict) ==> Contradicted(end.db, end.calls[k].kind.request)))
  {
    hide Run, Holders, Recorded, Balanced, Journaled, Tracked;
    InitialDisciplined(w, opening);
    AlwaysDisciplined(c, w, opening, actions);
    AlwaysConsistent(c, w, opening, actions);
    var end := Run(c, w, actions);
    forall k | 0 <= k < |end.calls| && end.calls[k].kind.Create?
      ensures CreateOk(end.db, end.calls[k].kind.request, end.calls[k].pc)
    {
      assert CallOk(end.db, end.calls[k]);
    }
  }

  /** A call that contradicts an existing row gets the conflict as soon as it looks, before or after inserting. */
  lemma ContradictionIsReported(c: Config, w: World, opening: OpeningBalances, call: Call, env: Env)
    requires Consistent(w.db, opening) && call.kind.Create? && Contradicted(w.db, call.kind.request)
    requires (call.pc.Finding? || call.pc.Reloading?) && env.fault == Clean
    ensures NextPc(c, w, call, env) == Raised(IdempotencyConflict)
  {
    hide Balanced, Journaled, Tracked;
    var r := call.kind.request;
    var id :| HasKey(w.db, id, r.owner, r.key) && w.db.settlements[id].fingerprint != FingerprintOf(r);
    assert FindRow(w.db, r.owner, r.key) == Some(id);
  }

  /** And it never gets past that row: nowhere in any run does it claim, submit, finalize or return. */
  lemma ContradictedNeverReturns(c: Config, w: World, opening: OpeningBalances, actions: seq<Action>, k: nat)
    requires Initial(w, opening)
    requires k < |Run(c, w, actions).calls| && Run(c, w, actions).calls[k].kind.Create?
    requires Contradicted(Run(c, w, actions).db, Run(c, w, actions).calls[k].kind.request)
    ensures var pc := Run(c, w, actions).calls[k].pc; pc.Finding? || pc.Inserting? || pc.Reloading? || pc.Raised?
  {
    hide Run, Holders, Recorded, Balanced, Journaled, Tracked;
    InitialDisciplined(w, opening);
    AlwaysDisciplined(c, w, opening, actions);
    AlwaysConsistent(c, w, opening, actions);
    var end := Run(c, w, actions);
    assert CallOk(end.db, end.calls[k]);
  }

  /** At most one `create` call ever wins a settlement's first claim, and with it the right to submit the payout. */
  lemma OneCreateWins(c: Config, w: World, opening: OpeningBalances, actions: seq<Action>, i: nat, j: nat)
    requires Initial(w, opening)
    requires var end := Run(c, w, actions);
      && i < |end.issued| && j < |end.issued| && end.issued[i].id == end.issued[j].id
      && end.issued[i].call < |end.calls| && end.calls[end.issued[i].call].kind.Create?
      && end.issued[j].call < |end.calls| && end.calls[end.issued[j].call].kind.Create?
    ensures i == j
  {
    hide Run, CallsOk, Initial, Consistent;
    InitialDisciplined(w, opening);
    AlwaysDisciplined(c, w, opening, actions);
    var end := Run(c, w, actions);
    assert end.issued[i] in end.issued && end.issued[j] in end.issued;
    assert IssueOk(end, end.issued[i]) && IssueOk(end, end.issued[j]);
  }

  lemma HeldByOne(w: World, j: nat, k: nat)
    requires Recorded(w.db, w.issued) && j < |w.calls| && k < |w.calls| && HeldOk(w, j) && HeldOk(w, k)
    requires Held(w.calls[j].pc).Some? && Held(w.calls[j].pc) == Held(w.calls[k].pc)
    ensures j == k
  {
    var h := Held(w.calls[j].pc).value;
    var x :| 0 <= x < |w.issued| && w.issued[x] == Issue(h.0, h.1, j);
    var y :| 0 <= y < |w.issued| && w.issued[y] == Issue(h.0, h.1, k);
  }

  /** No two calls ever work under the same token of a settlement. */
  lemma TokensAreNotShared(c: Config, w: World, opening: OpeningBalances, actions: seq<Action>, j: nat, k: nat)
    requires Initial(w, opening)
    requires var end := Run(c, w, actions);
      j < |end.calls| && k < |end.calls| && Held(end.calls[j].pc).Some? && Held(end.calls[j].pc) == Held(end.calls[k].pc)
    ensures j == k
  {
    hide Run, CallsOk, Initial, Consistent, Recorded, HeldOk, IssueOk;
    InitialDisciplined(w, opening);
    AlwaysDisciplined(c, w, opening, actions);
    HeldByOne(Run(c, w, actions), j, k);
  }

  /** In every reachable state at most one `create` stands before the first submission of a settlement. */
  lemma OneCreateInitiates(c: Config, w: World, opening: OpeningBalances, actions: seq<Action>, j: nat, k: nat)
    requires Initial(w, opening)
    requires var end := Run(c, w, actions);
      && j < |end.calls| && k < |end.calls| && end.calls[j].pc.Initiating? && end.calls[k].pc.Initiating?
      && end.calls[j].pc.id == end.calls[k].pc.id
    ensures j == k && Run(c, w, actions).calls[j].kind.Create?
  {
    hide Run, Initial, Consistent, Recorded, HeldOk, CreateOk;
    InitialDisciplined(w, opening);
    AlwaysDisciplined(c, w, opening, actions);
    var end := Run(c, w, actions);
    assert CallOk(end.db, end.calls[j]) && CallOk(end.db, end.calls[k]);
    InitiatesFirst(end, j);
    InitiatesFirst(end, k);
    HeldByOne(end, j, k);
  }

  /** Whoever submits from `create` does so under the first token. */
  lemma InitiatesFirst(w: World, k: nat)
    requires Holders(w) && k < |w.calls| && w.calls[k].kind.Create? && w.calls[k].pc.Initiating?
    ensures w.calls[k].pc.token == 1
  {
    assert HeldOk(w, k);
    assert IssueOk(w, Issue(w.calls[k].pc.id, w.calls[k].pc.token, k));
  }
}
