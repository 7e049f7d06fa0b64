/** The database's own guards on journals and postings, one row statement at a time
    (alembic/versions/0002_durable_payout_and_ledger_guards.py). */
module JournalGuards {
  import opened Options
  import opened Routing
  import opened Sums
  import opened Ledger

  datatype JournalRow = JournalRow(settlement: Option<Id>, event: Event, created: int, posted: bool)

  type JournalTable = map<nat, JournalRow>

  type PostingTable = map<nat, Posting>

  datatype Tables = Tables(journals: JournalTable, postings: PostingTable)

  datatype Violation =
    | PostedPostings | PostedJournal | NotATransition
    | Unposted | TooFewPostings | Unbalanced
    | DuplicateId | EventMismatch | EventTaken | MissingJournal | StillReferenced | BadAmount

  datatype Statement =
    | InsertJournal(id: nat, journal: JournalRow)
    | UpdateJournal(id: nat, newId: nat, journal: JournalRow)
    | DeleteJournal(id: nat)
    | InsertPosting(id: nat, posting: Posting)
    | UpdatePosting(id: nat, newId: nat, posting: Posting)
    | DeletePosting(id: nat)
    | Commit
    | Rollback

  /** A connection: what it sees, what is committed, the journals to be checked at commit, and whether a statement failed. */
  datatype Session = Session(tables: Tables, base: Tables, pending: set<nat>, broken: bool)

  datatype Effect = Done(tables: Tables) | Raises(violation: Violation)

  function Under(postings: PostingTable, j: nat): PostingTable {
    map id | id in postings && postings[id].journal == j :: postings[id]
  }

  function SideWeight(c: Currency, side: Side): (nat, Posting) -> int {
    (id: nat, p: Posting) => if p.currency == c && p.side == side then p.amount else 0
  }

  ghost predicate Balances(rows: PostingTable) {
    forall c :: Total(rows, SideWeight(c, Debit)) == Total(rows, SideWeight(c, Credit))
  }

  // ---------------------------------------------------------------- row statements

  predicate ParentPosted(t: Tables, j: nat) { j in t.journals && t.journals[j].posted }

  predicate EventFits(row: JournalRow) { row.event == Opening <==> row.settlement.None? }

  predicate Conflicts(a: JournalRow, b: JournalRow) {
    a.settlement.Some? && a.settlement == b.settlement && a.event == b.event
  }

  predicate Taken(journals: JournalTable, row: JournalRow) { exists j | j in journals :: Conflicts(journals[j], row) }

  predicate IsTransition(old_: JournalRow, new_: JournalRow) { new_ == old_.(posted := true) }

  function PostingEffect(t: Tables, others: PostingTable, id: nat, p: Posting): Effect {
    if ParentPosted(t, p.journal) then Raises(PostedPostings)
    else if p.amount <= 0 then Raises(BadAmount)
    else if id in others then Raises(DuplicateId)
    else if p.journal !in t.journals then Raises(MissingJournal)
    else Done(t.(postings := others[id := p]))
  }

  function EffectOf(t: Tables, st: Statement): Effect {
    match st
    case InsertJournal(id, row) =>
      if !EventFits(row) then Raises(EventMismatch)
      else if id in t.journals then Raises(DuplicateId)
      else if Taken(t.journals, row) then Raises(EventTaken)
      else Done(t.(journals := t.journals[id := row]))
    case UpdateJournal(id, newId, row) =>
      if id !in t.journals then Done(t)
      else if t.journals[id].posted then Raises(PostedJournal)
      else if newId != id || !IsTransition(t.journals[id], row) then Raises(NotATransition)
      else Done(t.(journals := t.journals[id := row]))
    case DeleteJournal(id) =>
      if id !in t.journals then Done(t)
      else if t.journals[id].posted then Raises(PostedJournal)
      else if Under(t.postings, id) != map[] then Raises(StillReferenced)
      else Done(t.(journals := t.journals - {id}))
    case InsertPosting(id, p) => PostingEffect(t, t.postings, id, p)
    case UpdatePosting(id, newId, p) =>
      if id !in t.postings then Done(t) else PostingEffect(t, t.postings - {id}, newId, p)
    case DeletePosting(id) =>
      if id !in t.postings then Done(t)
      else if ParentPosted(t, t.postings[id].journal) then Raises(PostedPostings)
      else Done(t.(postings := t.postings - {id}))
    case _ => Done(t)
  }

  /** The deferred check of one inserted journal; a journal deleted meanwhile fails by its missing postings. */
  ghost function CheckOf(t: Tables, j: nat): Option<Violation> {
    if j in t.journals && !t.journals[j].posted then Some(Unposted)
    else if |Under(t.postings, j)| < 2 then Some(TooFewPostings)
    else if !Balances(Under(t.postings, j)) then Some(Unbalanced)
    else None
  }

  ghost predicate Commits(s: Session) { !s.broken && forall j | j in s.pending :: CheckOf(s.tables, j) == None }

  ghost function Execute(s: Session, st: Statement): Session {
    match st
    case Commit => if Commits(s) then Session(s.tables, s.tables, {}, false) else Session(s.base, s.base, {}, false)
    case Rollback => Session(s.base, s.base, {}, false)
    case _ =>
      if s.broken then s
      else
        var effect := EffectOf(s.tables, st);
        if effect.Raises? then s.(broken := true)
        else s.(tables := effect.tables, pending := s.pending + (if st.InsertJournal? then {st.id} else {}))
  }

  ghost function Executed(s: Session, statements: seq<Statement>): Session {
    if statements == [] then s
    else Execute(Executed(s, statements[..|statements| - 1]), statements[|statements| - 1])
  }

  // ---------------------------------------------------------------- the program

  class Database {
    var journals: JournalTable
    var postings: PostingTable
    var committed: Tables
    var pending: set<nat>
    var broken: bool

    function Contents(): Session
      reads this
    {
      Session(Tables(journals, postings), committed, pending, broken)
    }

    constructor (committed: Tables)
      ensures Contents() == Session(committed, committed, {}, false)
    {
      this.committed := committed;
      journals, postings, pending, broken := committed.journals, committed.postings, {}, false;
    }

    /** The trigger before every change of a posting: it looks at the new journal, or at the old one of a deleted row. */
    method GuardPostingMutation(newJournal: Option<nat>, oldJournal: Option<nat>) returns (raised: Option<Violation>)
      requires newJournal.Some? || oldJournal.Some?
      ensures raised.None? || raised == Some(PostedPostings)
      ensures raised.Some? <==> ParentPosted(Contents().tables, if newJournal.Some? then newJournal.value else oldJournal.value)
    {
      var parent := if newJournal.Some? then newJournal.value else oldJournal.value;
      var parentPosted := if parent in journals then Some(journals[parent].posted) else None;
      raised := if parentPosted == Some(true) then Some(PostedPostings) else None;
    }

    /** The trigger before an update or a deletion of a journal. */
    method GuardJournalMutation(id: nat, change: Option<(nat, JournalRow)>) returns (raised: Option<Violation>)
      requires id in journals
      ensures raised == Some(PostedJournal) <==> journals[id].posted
      ensures raised == Some(NotATransition)
        <==> (!journals[id].posted && change.Some? && (change.value.0 != id || !IsTransition(journals[id], change.value.1)))
      ensures raised.None? || raised == Some(PostedJournal) || raised == Some(NotATransition)
    {
      var row := journals[id];
      if row.posted {
        return Some(PostedJournal);
      }
      if change.None? {
        return None;
      }
      var (newId, now) := change.value;
      if newId != id || now.settlement != row.settlement || now.event != row.event || now.created != row.created || !now.posted {
        return Some(NotATransition);
      }
      raised := None;
    }

    method SumOf(rows: PostingTable, c: Currency, side: Side) returns (sum: int)
      ensures sum == Total(rows, SideWeight(c, side))
    {
      sum := 0;
      var left := rows;
      while left != map[]
        invariant sum + Total(left, SideWeight(c, side)) == Total(rows, SideWeight(c, side))
        decreases |left|
      {
        var id :| id in left;
        TotalRemove(left, SideWeight(c, side), id);
        if left[id].currency == c && left[id].side == side {
          sum := sum + left[id].amount;
        }
        assert |left - {id}| < |left| by { assert left == (left - {id})[id := left[id]]; }
        left := left - {id};
      }
    }

    /** The deferred trigger of an inserted journal. */
    method CheckPostedJournal(id: nat) returns (raised: Option<Violation>)
      ensures raised == CheckOf(Contents().tables, id)
    {
      if id in journals && !journals[id].posted {
        return Some(Unposted);
      }
      var rows := Under(postings, id);
      if |rows| < 2 {
        return Some(TooFewPostings);
      }
      var currencies := [USD, USDC, EUR, PHP, AED];
      for i := 0 to |currencies|
        invariant forall k | 0 <= k < i ::
          Total(rows, SideWeight(currencies[k], Debit)) == Total(rows, SideWeight(currencies[k], Credit))
      {
        var debits := SumOf(rows, currencies[i], Debit);
        var credits := SumOf(rows, currencies[i], Credit);
        if debits != credits {
          return Some(Unbalanced);
        }
      }
      forall c ensures Total(rows, SideWeight(c, Debit)) == Total(rows, SideWeight(c, Credit)) {
        assert c == currencies[0] || c == currencies[1] || c == currencies[2] || c == currencies[3] || c == currencies[4];
      }
      raised := None;
    }

    method AddJournal(id: nat, row: JournalRow)
      requires !broken
      modifies this
      ensures Contents() == Execute(old(Contents()), InsertJournal(id, row))
    {
      if (row.event == Opening) != row.settlement.None? || id in journals || Taken(journals, row) {
        broken := true;
        return;
      }
      journals := journals[id := row];
      pending := pending + {id};
    }

    method ChangeJournal(id: nat, newId: nat, row: JournalRow)
      requires !broken
      modifies this
      ensures Contents() == Execute(old(Contents()), UpdateJournal(id, newId, row))
    {
      if id !in journals {
        return;
      }
      var raised := GuardJournalMutation(id, Some((newId, row)));
      if raised.Some? {
        broken := true;
        return;
      }
      journals := journals[id := row];
    }

    method RemoveJournal(id: nat)
      requires !broken
      modifies this
      ensures Contents() == Execute(old(Contents()), DeleteJournal(id))
    {
      if id !in journals {
        return;
      }
      var raised := GuardJournalMutation(id, None);
      if raised.Some? || Under(postings, id) != map[] {
        broken := true;
        return;
      }
      journals := journals - {id};
    }

    method AddPosting(id: nat, p: Posting)
      requires !broken
      modifies this
      ensures Contents() == Execute(old(Contents()), InsertPosting(id, p))
    {
      var raised := GuardPostingMutation(Some(p.journal), None);
      if raised.Some? || p.amount <= 0 || id in postings || p.journal !in journals {
        broken := true;
        return;
      }
      postings := postings[id := p];
    }

    method ChangePosting(id: nat, newId: nat, p: Posting)
      requires !broken
      modifies this
      ensures Contents() == Execute(old(Contents()), UpdatePosting(id, newId, p))
    {
      if id !in postings {
        return;
      }
      var raised := GuardPostingMutation(Some(p.journal), Some(postings[id].journal));
      if raised.Some? || p.amount <= 0 || (newId != id && newId in postings) || p.journal !in journals {
        broken := true;
        return;
      }
      postings := (postings - {id})[newId := p];
    }

    method RemovePosting(id: nat)
      requires !broken
      modifies this
      ensures Contents() == Execute(old(Contents()), DeletePosting(id))
    {
      if id !in postings {
        return;
      }
      var raised := GuardPostingMutation(None, Some(postings[id].journal));
      if raised.Some? {
        broken := true;
        return;
      }
      postings := postings - {id};
    }

    method RollBack()
      modifies this
      ensures Contents() == Execute(old(Contents()), Rollback)
    {
      journals, postings, pending, broken := committed.journals, committed.postings, {}, false;
    }

    method CommitAll() returns (ok: bool)
      modifies this
      ensures ok <==> Commits(old(Contents()))
      ensures Contents() == Execute(old(Contents()), Commit)
    {
      ok := !broken;
      var left := pending;
      while ok && left != {}
        invariant left <= pending && Contents() == old(Contents())
        invariant ok ==> !broken && forall j | j in pending && j !in left :: CheckOf(Contents().tables, j) == None
        invariant !ok ==> !Commits(Contents())
        decreases left, ok
      {
        var j :| j in left;
        var raised := CheckPostedJournal(j);
        ok := raised.None?;
        left := left - {j};
      }
      if !ok {
        RollBack();
        return;
      }
      committed := Tables(journals, postings);
      pending := {};
    }
  }

  // ---------------------------------------------------------------- what the guards keep

  ghost predicate Complete(t: Tables, j: nat) {
    && j in t.journals && t.journals[j].posted
    && |Under(t.postings, j)| >= 2 && Balances(Under(t.postings, j))
  }

  ghost predicate References(t: Tables) {
    && (forall id | id in t.postings :: t.postings[id].journal in t.journals && t.postings[id].amount > 0)
    && (forall i, j | i in t.journals && j in t.journals && i != j :: !Conflicts(t.journals[i], t.journals[j]))
    && (forall j | j in t.journals :: EventFits(t.journals[j]))
  }

  /** Every journal is posted, has at least two postings and balances in each currency. */
  ghost predicate Sealed(t: Tables) { References(t) && forall j | j in t.journals :: Complete(t, j) }

  /** The journal row and the set of its postings are the same. */
  ghost predicate SameJournal(t: Tables, u: Tables, j: nat) {
    && j in t.journals && j in u.journals && t.journals[j] == u.journals[j]
    && Under(t.postings, j) == Under(u.postings, j)
  }

  ghost predicate Same(t: Tables, u: Tables) { forall j | j in t.journals :: SameJournal(t, u, j) }

  ghost predicate Guarded(s: Session) {
    && Sealed(s.base)
    && (!s.broken ==>
      && References(s.tables) && Same(s.base, s.tables)
      && forall j | j in s.tables.journals :: j in s.pending || j in s.base.journals)
  }

  /** An update that takes a posting away from a committed journal; statements that keep `journal_id` never do. */
  predicate Takes(s: Session, st: Statement) {
    && st.UpdatePosting? && st.id in s.tables.postings
    && s.tables.postings[st.id].journal in s.base.journals && st.posting.journal != s.tables.postings[st.id].journal
  }

  ghost predicate TakesNothing(s: Session, statements: seq<Statement>) {
    statements == [] ||
    (TakesNothing(s, statements[..|statements| - 1])
     && !Takes(Executed(s, statements[..|statements| - 1]), statements[|statements| - 1]))
  }

  predicate IsRow(st: Statement) { !st.Commit? && !st.Rollback? }

  /** A posted journal's row stays, and its postings can only become fewer. */
  ghost predicate Shrunk(t: Tables, u: Tables, j: nat) {
    && j in t.journals && j in u.journals && t.journals[j] == u.journals[j]
    && forall id | id in u.postings && u.postings[id].journal == j :: id in t.postings && t.postings[id] == u.postings[id]
  }

  lemma EffectShrinks(t: Tables, st: Statement, j: nat)
    requires ParentPosted(t, j) && EffectOf(t, st).Done?
    ensures Shrunk(t, EffectOf(t, st).tables, j)
  {
  }

  lemma EffectReferences(t: Tables, st: Statement)
    requires References(t) && EffectOf(t, st).Done?
    ensures References(EffectOf(t, st).tables)
  {
    var u := EffectOf(t, st).tables;
    if st.DeleteJournal? && st.id in t.journals {
      assert Under(t.postings, st.id) == map[];
      assert forall id | id in t.postings :: id in Under(t.postings, st.id) <==> t.postings[id].journal == st.id;
    }
  }

  /** A statement that takes nothing from a posted journal leaves its postings exactly as they are. */
  lemma EffectKeeps(t: Tables, st: Statement, j: nat)
    requires ParentPosted(t, j) && EffectOf(t, st).Done?
    requires st.UpdatePosting? && st.id in t.postings && t.postings[st.id].journal == j ==> st.posting.journal == j
    ensures SameJournal(t, EffectOf(t, st).tables, j)
  {
    var u := EffectOf(t, st).tables;
    forall id | id in Under(t.postings, j) ensures id in u.postings && u.postings[id] == t.postings[id] {
    }
    EffectShrinks(t, st, j);
    assert Under(t.postings, j) == Under(u.postings, j);
  }

  lemma SameComplete(t: Tables, u: Tables, j: nat)
    requires Complete(t, j) && SameJournal(t, u, j)
    ensures Complete(u, j)
  {
  }

  lemma ExecuteGuarded(s: Session, st: Statement)
    requires Guarded(s) && !Takes(s, st)
    ensures Guarded(Execute(s, st)) && Same(s.base, Execute(s, st).base)
  {
    hide References, EffectOf, Balances;
    var t := Execute(s, st);
    if st.Commit? && Commits(s) {
      forall j | j in t.base.journals ensures Complete(t.base, j) {
        if j in s.base.journals { SameComplete(s.base, s.tables, j); } else { assert CheckOf(s.tables, j) == None; }
      }
    } else if IsRow(st) && !t.broken {
      RowGuarded(s, st);
    }
  }

  lemma RowGuarded(s: Session, st: Statement)
    requires Guarded(s) && !Takes(s, st) && IsRow(st) && !Execute(s, st).broken
    ensures Guarded(Execute(s, st))
  {
    var t := Execute(s, st);
    EffectReferences(s.tables, st);
    forall j | j in s.base.journals ensures SameJournal(s.base, t.tables, j) {
      assert Complete(s.base, j);
      assert SameJournal(s.base, s.tables, j);
      EffectKeeps(s.tables, st, j);
    }
  }

  /** Over any statements, transactions and failures: every committed journal is posted, has at least two postings
      and balances per currency; and its row and postings never change afterwards, as long as no update
      takes a posting away from a committed journal. */
  lemma {:induction false} CommittedJournalsAreFinal(s: Session, statements: seq<Statement>)
    requires Guarded(s) && TakesNothing(s, statements)
    ensures Guarded(Executed(s, statements)) && Same(s.base, Executed(s, statements).base)
  {
    hide Guarded, Execute, Takes, SameJournal;
    if statements == [] {
      forall j | j in s.base.journals ensures SameJournal(s.base, s.base, j) { SameSelf(s.base, j); }
    } else {
      var init, st := statements[..|statements| - 1], statements[|statements| - 1];
      CommittedJournalsAreFinal(s, init);
      var before := Executed(s, init);
      ExecuteGuarded(before, st);
      forall j | j in s.base.journals ensures SameJournal(s.base, Execute(before, st).base, j) {
        assert SameJournal(s.base, before.base, j);
        SameTransitive(s.base, before.base, Execute(before, st).base, j);
      }
    }
  }

  lemma SameSelf(t: Tables, j: nat)
    requires j in t.journals
    ensures SameJournal(t, t, j)
  {
  }

  lemma SameTransitive(t: Tables, u: Tables, v: Tables, j: nat)
    requires SameJournal(t, u, j) && Same(u, v)
    ensures SameJournal(t, v, j)
  {
    assert SameJournal(u, v, j);
  }

  // ---------------------------------------------------------------- posted journals only shrink

  /** Within a transaction no statement adds a posting to a posted journal or changes one of its postings. */
  lemma {:induction false} PostedOnlyShrinks(s: Session, body: seq<Statement>, j: nat)
    requires forall i | 0 <= i < |body| :: IsRow(body[i])
    requires ParentPosted(s.tables, j)
    ensures Shrunk(s.tables, Executed(s, body).tables, j)
    ensures Executed(s, body).base == s.base && s.pending <= Executed(s, body).pending
  {
    hide EffectOf;
    if body != [] {
      var init, st := body[..|body| - 1], body[|body| - 1];
      assert IsRow(st);
      PostedOnlyShrinks(s, init, j);
      var before := Executed(s, init);
      if EffectOf(before.tables, st).Done? { EffectShrinks(before.tables, st, j); }
    }
  }

  /** A new journal posted before it has two postings can never be committed by that transaction. */
  lemma PostedTooEarlyNeverCommits(s: Session, body: seq<Statement>, j: nat)
    requires forall i | 0 <= i < |body| :: IsRow(body[i])
    requires j in s.pending && ParentPosted(s.tables, j) && |Under(s.tables.postings, j)| < 2
    ensures !Commits(Executed(s, body))
  {
    PostedOnlyShrinks(s, body, j);
    var t := Executed(s, body);
    assert Under(t.tables.postings, j).Keys <= Under(s.tables.postings, j).Keys;
    FewerKeys(Under(t.tables.postings, j), Under(s.tables.postings, j));
    assert CheckOf(t.tables, j) != None;
  }

  lemma FewerKeys(a: PostingTable, b: PostingTable)
    requires a.Keys <= b.Keys
    ensures |a| <= |b|
  {
    assert b.Keys == a.Keys + (b.Keys - a.Keys);
    assert |a| == |a.Keys| && |b| == |b.Keys|;
  }

  // ---------------------------------------------------------------- exactly when history survives a transaction

  ghost predicate Fresh(s: Session) { Guarded(s) && s.tables == s.base && s.pending == {} && !s.broken }

  ghost predicate Lost(s: Session, t: Session, id: nat) {
    && id in s.base.postings && s.base.postings[id].journal in s.base.journals
    && !(id in t.tables.postings && t.tables.postings[id].journal == s.base.postings[id].journal)
  }

  lemma BasePosted(s: Session, body: seq<Statement>, j: nat)
    requires Fresh(s) && j in s.base.journals
    requires forall i | 0 <= i < |body| :: IsRow(body[i])
    ensures Shrunk(s.base, Executed(s, body).tables, j) && ParentPosted(Executed(s, body).tables, j)
    ensures Executed(s, body).base == s.base
  {
    assert Complete(s.base, j);
    PostedOnlyShrinks(s, body, j);
  }

  lemma {:induction false} TakenIsLost(s: Session, body: seq<Statement>) returns (id: nat)
    requires Fresh(s) && !TakesNothing(s, body) && !Executed(s, body).broken
    requires forall i | 0 <= i < |body| :: IsRow(body[i])
    ensures Lost(s, Executed(s, body), id)
  {
    hide EffectOf, Fresh;
    var init, st := body[..|body| - 1], body[|body| - 1];
    assert IsRow(st);
    var before := Executed(s, init);
    if Takes(before, st) {
      id := st.id;
      assert before.base == s.base by { BaseStays(s, init); }
      var j := before.tables.postings[id].journal;
      BasePosted(s, init, j);
      TakenHere(before.tables, st);
    } else {
      id := TakenIsLost(s, init);
      var j := s.base.postings[id].journal;
      BasePosted(s, init, j);
      EffectShrinks(before.tables, st, j);
    }
  }

  lemma {:induction false} BaseStays(s: Session, body: seq<Statement>)
    requires forall i | 0 <= i < |body| :: IsRow(body[i])
    ensures Executed(s, body).base == s.base
  {
    hide EffectOf;
    if body != [] {
      assert IsRow(body[|body| - 1]);
      BaseStays(s, body[..|body| - 1]);
    }
  }

  lemma TakenHere(t: Tables, st: Statement)
    requires EffectOf(t, st).Done? && st.UpdatePosting? && st.id in t.postings
    requires st.posting.journal != t.postings[st.id].journal
    ensures var u := EffectOf(t, st).tables;
      !(st.id in u.postings && u.postings[st.id].journal == t.postings[st.id].journal)
  {
  }

  /** A transaction that commits leaves every earlier journal as it was if and only if none of its updates
      takes a posting away from a committed journal. */
  lemma HistorySurvivesIff(s: Session, body: seq<Statement>)
    requires Fresh(s) && Commits(Executed(s, body))
    requires forall i | 0 <= i < |body| :: IsRow(body[i])
    ensures Same(s.base, Execute(Executed(s, body), Commit).base) <==> TakesNothing(s, body)
  {
    var t := Executed(s, body);
    hide Executed, TakesNothing;
    BaseStays(s, body);
    if TakesNothing(s, body) {
      CommittedJournalsAreFinal(s, body);
    } else {
      var id := TakenIsLost(s, body);
      var j := s.base.postings[id].journal;
      assert id in Under(s.base.postings, j);
      assert id !in Under(t.tables.postings, j);
      assert !SameJournal(s.base, t.tables, j);
    }
  }

  // ---------------------------------------------------------------- the ledger's own order of statements

  /** The statements of one entry: an open journal, its two postings, then the posting transition. */
  function EntryStatements(j: nat, row: JournalRow, d: nat, debit: Posting, c: nat, credit: Posting): seq<Statement> {
    [InsertJournal(j, row), InsertPosting(d, debit), InsertPosting(c, credit), UpdateJournal(j, j, row.(posted := true))]
  }

  predicate IsPair(j: nat, debit: Posting, credit: Posting, amount: int) {
    && debit.journal == j && debit.side == Debit && debit.amount == amount
    && credit.journal == j && credit.side == Credit && credit.amount == amount && debit.currency == credit.currency
  }

  lemma ExecutedFour(s: Session, a: Statement, b: Statement, c: Statement, d: Statement)
    ensures Executed(s, [a, b, c, d]) == Execute(Execute(Execute(Execute(s, a), b), c), d)
  {
    assert [a, b, c, d][..3] == [a, b, c] && [a, b, c][..2] == [a, b] && [a, b][..1] == [a];
    hide Execute;
    assert Executed(s, [a]) == Execute(s, a);
    assert Executed(s, [a, b]) == Execute(Execute(s, a), b);
    assert Executed(s, [a, b, c]) == Execute(Execute(Execute(s, a), b), c);
  }

  lemma PairBalances(d: nat, debit: Posting, c: nat, credit: Posting, j: nat, amount: int)
    requires IsPair(j, debit, credit, amount) && d != c
    ensures Balances(map[d := debit, c := credit]) && |map[d := debit, c := credit]| == 2
  {
    var none: PostingTable := map[];
    var one: PostingTable := none[d := debit];
    var two: PostingTable := one[c := credit];
    assert two == map[d := debit, c := credit] && |two| == |one| + 1 && |one| == 1;
    forall u ensures Total(two, SideWeight(u, Debit)) == Total(two, SideWeight(u, Credit)) {
      TotalInsert(none, SideWeight(u, Debit), d, debit);
      TotalInsert(one, SideWeight(u, Debit), c, credit);
      TotalInsert(none, SideWeight(u, Credit), d, debit);
      TotalInsert(one, SideWeight(u, Credit), c, credit);
    }
  }

  lemma EntryTables(s: Session, j: nat, row: JournalRow, d: nat, debit: Posting, c: nat, credit: Posting, amount: int)
    requires !s.broken && References(s.tables) && !row.posted && EventFits(row) && IsPair(j, debit, credit, amount)
    requires j !in s.tables.journals && d !in s.tables.postings && c !in s.tables.postings && d != c
    ensures var t := Executed(s, EntryStatements(j, row, d, debit, c, credit));
      && (!t.broken <==> amount > 0 && !Taken(s.tables.journals, row))
      && (!t.broken ==> t == s.(
        tables := Tables(s.tables.journals[j := row.(posted := true)], s.tables.postings[d := debit][c := credit]),
        pending := s.pending + {j}))
  {
    hide References, Executed, EventFits, Taken;
    assert EventFits(row);
    ExecutedFour(s, InsertJournal(j, row), InsertPosting(d, debit), InsertPosting(c, credit), UpdateJournal(j, j, row.(posted := true)));
  }

  lemma EntryRows(t: Tables, j: nat, d: nat, debit: Posting, c: nat, credit: Posting, amount: int, i: nat)
    requires References(t) && IsPair(j, debit, credit, amount) && j !in t.journals
    requires d !in t.postings && c !in t.postings && d != c
    ensures Under(t.postings[d := debit][c := credit], i)
      == if i == j then map[d := debit, c := credit] else Under(t.postings, i)
  {
  }

  /** An entry written in the ledger's order trips no guard: it is refused only by the check on the amount or the
      uniqueness of the event, it passes its own check at commit, and it spoils no other check. */
  lemma EntryTripsNoGuard(s: Session, j: nat, row: JournalRow, d: nat, debit: Posting, c: nat, credit: Posting, amount: int)
    requires !s.broken && References(s.tables) && !row.posted && EventFits(row) && IsPair(j, debit, credit, amount)
    requires j !in s.tables.journals && d !in s.tables.postings && c !in s.tables.postings && d != c
    ensures var t := Executed(s, EntryStatements(j, row, d, debit, c, credit));
      && (!t.broken <==> amount > 0 && !Taken(s.tables.journals, row))
      && (!t.broken ==> Complete(t.tables, j) && (Commits(t) <==> forall i | i in s.pending && i != j :: CheckOf(s.tables, i) == None))
  {
    hide Taken, Executed, References;
    EntryTables(s, j, row, d, debit, c, credit, amount);
    var t := Executed(s, EntryStatements(j, row, d, debit, c, credit));
    if !t.broken {
      EntryRows(s.tables, j, d, debit, c, credit, amount, j);
      PairBalances(d, debit, c, credit, j, amount);
      assert CheckOf(t.tables, j) == None;
      forall i | i != j ensures CheckOf(t.tables, i) == CheckOf(s.tables, i) {
        EntryRows(s.tables, j, d, debit, c, credit, amount, i);
      }
    }
  }

  // ---------------------------------------------------------------- the guard on updates looks only at the new journal

  const SETTLED := JournalRow(Some(7), Reserve, 0, true)

  const LATER := JournalRow(Some(8), Reserve, 1, false)

  /** A database with one committed entry. */
  function OneEntry(): Tables {
    Tables(map[0 := SETTLED],
           map[0 := Posting(0, OMNIBUS_USD, USD, Debit, 5), 1 := Posting(0, OMNIBUS_USD, USD, Credit, 5)])
  }

  /** A new entry that takes its debit from the committed one. */
  function TakingStatements(): seq<Statement> {
    [InsertJournal(1, LATER), UpdatePosting(0, 0, Posting(1, OMNIBUS_USD, USD, Debit, 5)),
     InsertPosting(2, Posting(1, OMNIBUS_USD, USD, Credit, 5)), UpdateJournal(1, 1, LATER.(posted := true))]
  }

  lemma OneEntryFresh()
    ensures Fresh(Session(OneEntry(), OneEntry(), {}, false))
  {
    var d, c := Posting(0, OMNIBUS_USD, USD, Debit, 5), Posting(0, OMNIBUS_USD, USD, Credit, 5);
    PairBalances(0, d, 1, c, 0, 5);
    var rows: PostingTable := map[0 := d, 1 := c];
    assert Under(OneEntry().postings, 0) == rows;
    hide Balances;
    var s := Session(OneEntry(), OneEntry(), {}, false);
    assert References(s.tables);
    SameSelf(s.base, 0);
  }

  function TakenTables(): Tables {
    Tables(map[0 := SETTLED, 1 := LATER.(posted := true)],
           map[0 := Posting(1, OMNIBUS_USD, USD, Debit, 5), 1 := Posting(0, OMNIBUS_USD, USD, Credit, 5),
               2 := Posting(1, OMNIBUS_USD, USD, Credit, 5)])
  }

  lemma NotTaken()
    ensures !Taken(OneEntry().journals, LATER)
  {
  }

  /** The first two statements: the new journal, and the posting that it takes. */
  lemma TakingHalf(s: Session)
    requires s == Session(OneEntry(), OneEntry(), {}, false)
    ensures Execute(Execute(s, InsertJournal(1, LATER)), UpdatePosting(0, 0, Posting(1, OMNIBUS_USD, USD, Debit, 5)))
      == Session(HalfTaken(), OneEntry(), {1}, false)
  {
    NotTaken();
    hide Taken;
    var started := Execute(s, InsertJournal(1, LATER));
    assert started == Session(Tables(map[0 := SETTLED, 1 := LATER], OneEntry().postings), OneEntry(), {1}, false);
  }

  function HalfTaken(): Tables {
    Tables(map[0 := SETTLED, 1 := LATER],
           map[0 := Posting(1, OMNIBUS_USD, USD, Debit, 5), 1 := Posting(0, OMNIBUS_USD, USD, Credit, 5)])
  }

  /** The last two: the balancing posting, and the posting transition. */
  lemma TakingRest(s: Session)
    requires s == Session(HalfTaken(), OneEntry(), {1}, false)
    ensures Execute(Execute(s, InsertPosting(2, Posting(1, OMNIBUS_USD, USD, Credit, 5))), UpdateJournal(1, 1, LATER.(posted := true)))
      == Session(TakenTables(), OneEntry(), {1}, false)
  {
    var filled := Execute(s, InsertPosting(2, Posting(1, OMNIBUS_USD, USD, Credit, 5)));
    assert filled == Session(Tables(map[0 := SETTLED, 1 := LATER], TakenTables().postings), OneEntry(), {1}, false);
  }

  lemma TakingExecuted(s: Session)
    requires s == Session(OneEntry(), OneEntry(), {}, false)
    ensures Executed(s, TakingStatements()) == Session(TakenTables(), OneEntry(), {1}, false)
  {
    ExecutedFour(s, InsertJournal(1, LATER), UpdatePosting(0, 0, Posting(1, OMNIBUS_USD, USD, Debit, 5)),
      InsertPosting(2, Posting(1, OMNIBUS_USD, USD, Credit, 5)), UpdateJournal(1, 1, LATER.(posted := true)));
    hide Executed, Execute, OneEntry, HalfTaken, TakenTables;
    TakingHalf(s);
    TakingRest(Session(HalfTaken(), OneEntry(), {1}, false));
  }

  lemma TakenChecks()
    ensures CheckOf(TakenTables(), 1) == None && !Complete(TakenTables(), 0)
  {
    var d, c := Posting(1, OMNIBUS_USD, USD, Debit, 5), Posting(1, OMNIBUS_USD, USD, Credit, 5);
    PairBalances(0, d, 2, c, 1, 5);
    hide Balances;
    assert Under(TakenTables().postings, 1) == map[0 := d, 2 := c];
    assert Under(TakenTables().postings, 0) == map[1 := Posting(0, OMNIBUS_USD, USD, Credit, 5)];
    assert |Under(TakenTables().postings, 0)| == 1;
  }

  /** The commit is accepted, and the committed journal is left with a single posting. */
  lemma TakingBreaksHistory()
    ensures var s := Session(OneEntry(), OneEntry(), {}, false);
      var t := Executed(s, TakingStatements());
      Fresh(s) && Commits(t) && 0 in s.base.journals && !Complete(Execute(t, Commit).base, 0)
  {
    hide Complete, CheckOf, Fresh, Executed;
    OneEntryFresh();
    TakingExecuted(Session(OneEntry(), OneEntry(), {}, false));
    TakenChecks();
  }

  // ---------------------------------------------------------------- which statements are accepted

  /** Statement by statement, exactly what the guards and constraints let through; a statement that finds no row does nothing. */
  lemma AcceptedIff(t: Tables, st: Statement)
    ensures EffectOf(t, st).Done? <==>
      match st
      case InsertJournal(id, row) =>
        && id !in t.journals && (row.event == Opening <==> row.settlement == None)
        && forall j | j in t.journals :: row.settlement.Some? && t.journals[j].settlement == row.settlement ==> t.journals[j].event != row.event
      case UpdateJournal(id, newId, row) =>
        id in t.journals ==>
          && !t.journals[id].posted && newId == id && row.posted && row.settlement == t.journals[id].settlement
          && row.event == t.journals[id].event && row.created == t.journals[id].created
      case DeleteJournal(id) =>
        id in t.journals ==> !t.journals[id].posted && forall p | p in t.postings :: t.postings[p].journal != id
      case InsertPosting(id, p) =>
        id !in t.postings && p.amount > 0 && p.journal in t.journals && !t.journals[p.journal].posted
      case UpdatePosting(id, newId, p) =>
        id in t.postings ==>
          (newId == id || newId !in t.postings) && p.amount > 0 && p.journal in t.journals && !t.journals[p.journal].posted
      case DeletePosting(id) =>
        id in t.postings && t.postings[id].journal in t.journals ==> !t.journals[t.postings[id].journal].posted
      case Commit => true
      case Rollback => true
  {
    if st.DeleteJournal? && st.id in t.journals {
      assert Under(t.postings, st.id) == map[] <==> forall p | p in t.postings :: t.postings[p].journal != st.id by {
        forall p | p in t.postings && t.postings[p].journal == st.id ensures Under(t.postings, st.id) != map[] {
          assert p in Under(t.postings, st.id);
        }
      }
    }
    if st.InsertJournal? { ConflictsSpelledOut(t, st.journal); }
    hide Under, Taken;
  }

  /** An accepted statement leaves its own row as it says, and every other row as it was. */
  lemma OnlyItsRow(t: Tables, st: Statement)
    requires EffectOf(t, st).Done?
    ensures var after := EffectOf(t, st).tables;
      match st
      case InsertJournal(id, row) => JournalWritten(t, after, id, Some(row))
      case UpdateJournal(id, _, row) => if id in t.journals then JournalWritten(t, after, id, Some(row)) else after == t
      case DeleteJournal(id) => JournalWritten(t, after, id, None)
      case InsertPosting(id, p) => PostingWritten(t, after, id, id, Some(p))
      case UpdatePosting(id, newId, p) => if id in t.postings then PostingWritten(t, after, id, newId, Some(p)) else after == t
      case DeletePosting(id) => PostingWritten(t, after, id, id, None)
      case Commit => after == t
      case Rollback => after == t
  {
    hide Under, Taken;
  }

  /** After the statement the journal `id` is this row, or there is none. */
  ghost predicate JournalWritten(t: Tables, after: Tables, id: nat, row: Option<JournalRow>) {
    && after.postings == t.postings
    && (row.Some? <==> id in after.journals) && (row.Some? ==> after.journals[id] == row.value)
    && forall j | j != id :: (j in after.journals <==> j in t.journals) && (j in t.journals ==> after.journals[j] == t.journals[j])
  }

  /** After the statement the posting `id` stands under `newId` as this row, or is gone. */
  ghost predicate PostingWritten(t: Tables, after: Tables, id: nat, newId: nat, row: Option<Posting>) {
    && after.journals == t.journals
    && (row.Some? <==> newId in after.postings) && (row.Some? ==> after.postings[newId] == row.value)
    && (id != newId ==> id !in after.postings)
    && forall p | p != id && p != newId ::
      (p in after.postings <==> p in t.postings) && (p in t.postings ==> after.postings[p] == t.postings[p])
  }

  lemma ConflictsSpelledOut(t: Tables, row: JournalRow)
    ensures Taken(t.journals, row) <==>
      !forall j | j in t.journals :: row.settlement.Some? && t.journals[j].settlement == row.settlement ==> t.journals[j].event != row.event
  {
    if !Taken(t.journals, row) {
      forall j | j in t.journals
        ensures row.settlement.Some? && t.journals[j].settlement == row.settlement ==> t.journals[j].event != row.event
      {
        assert !Conflicts(t.journals[j], row);
      }
    }
  }
}
