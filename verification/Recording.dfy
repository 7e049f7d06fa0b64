/** The ledger's entries as statements under the database's guards: the history of any run is accepted, statement by
    statement and commit by commit, and leaves tables that hold exactly the run's books. */
module Recording {
  import opened Ledger
  import opened Service
  import opened Protocol
  import opened JournalGuards
  import opened Seed

  /** The rows of the tables are the journals and postings of the books, each under its place as its id. */
  ghost predicate Represents(t: Tables, b: Books) { HoldJournals(t.journals, b.journals) && HoldPostings(t.postings, b.postings) }

  ghost predicate HoldJournals(rows: JournalTable, journals: seq<Journal>) {
    && (forall j: nat :: j in rows <==> j < |journals|)
    && (forall j: nat | j < |journals| :: j in rows && SameFacts(rows[j], journals[j]))
  }

  ghost predicate HoldPostings(rows: PostingTable, postings: seq<Posting>) {
    && (forall i: nat :: i in rows <==> i < |postings|)
    && (forall i: nat | i < |postings| :: i in rows && rows[i] == postings[i])
  }

  predicate SameFacts(row: JournalRow, j: Journal) {
    row.settlement == j.settlement && row.event == j.event && row.posted == j.posted
  }

  /** `next` has one more entry than `b`: a posted journal of a new event, with two opposite postings. */
  ghost predicate AddsEntry(b: Books, next: Books) {
    && |next.journals| == |b.journals| + 1 && next.journals[..|b.journals|] == b.journals
    && |next.postings| == |b.postings| + 2 && next.postings[..|b.postings|] == b.postings
    && var j, p := next.journals[|b.journals|], |b.postings|;
      && j.posted && (j.event == Opening <==> j.settlement.None?)
      && (j.settlement.Some? ==> !HasEvent(b.journals, j.settlement.value, j.event))
      && next.postings[p].amount > 0
      && IsPair(|b.journals|, next.postings[p], next.postings[p + 1], next.postings[p].amount)
  }

  function OpenRow(j: Journal, created: int): JournalRow { JournalRow(j.settlement, j.event, created, false) }

  /** The transaction that writes the entry by which `next` differs from `b`, if it does. */
  function EntryTransaction(b: Books, next: Books, created: int): seq<Statement> {
    if |next.journals| == |b.journals| + 1 && |next.postings| == |b.postings| + 2 then
      EntryStatements(|b.journals|, OpenRow(next.journals[|b.journals|], created),
        |b.postings|, next.postings[|b.postings|], |b.postings| + 1, next.postings[|b.postings| + 1]) + [Commit]
    else []
  }

  /** No statement fails, and every commit is accepted. */
  ghost predicate Smooth(s: Session, statements: seq<Statement>) {
    statements == [] ||
    (var init, st := statements[..|statements| - 1], statements[|statements| - 1];
     && Smooth(s, init) && !Executed(s, statements).broken && (st.Commit? ==> Commits(Executed(s, init))))
  }

  lemma {:induction false} ExecutedConcat(s: Session, a: seq<Statement>, b: seq<Statement>)
    ensures Executed(s, a + b) == Executed(Executed(s, a), b)
  {
    hide Execute;
    if b == [] {
      assert a + b == a;
    } else {
      assert (a + b)[..|a + b| - 1] == a + b[..|b| - 1];
      ExecutedConcat(s, a, b[..|b| - 1]);
    }
  }

  lemma {:induction false} SmoothConcat(s: Session, a: seq<Statement>, b: seq<Statement>)
    requires Smooth(s, a) && Smooth(Executed(s, a), b)
    ensures Smooth(s, a + b)
  {
    hide Executed, Commits;
    if b == [] {
      assert a + b == a;
    } else {
      var init := b[..|b| - 1];
      assert (a + b)[..|a + b| - 1] == a + init;
      SmoothConcat(s, a, init);
      ExecutedConcat(s, a, init);
      ExecutedConcat(s, a, b);
    }
  }

  /** Within a transaction nothing is mended: if it stands at the end it stood all along. */
  lemma {:induction false} UnbrokenIsSmooth(s: Session, body: seq<Statement>)
    requires (forall i | 0 <= i < |body| :: IsRow(body[i])) && !Executed(s, body).broken
    ensures Smooth(s, body)
  {
    hide EffectOf, Commits;
    if body != [] {
      assert IsRow(body[|body| - 1]);
      UnbrokenIsSmooth(s, body[..|body| - 1]);
    }
  }

  // ---------------------------------------------------------------- one entry

  lemma {:induction false} RowsTakeNothing(s: Session, statements: seq<Statement>)
    requires forall i | 0 <= i < |statements| :: !statements[i].UpdatePosting?
    ensures TakesNothing(s, statements)
  {
    hide Executed;
    if statements != [] { RowsTakeNothing(s, statements[..|statements| - 1]); }
  }

  /** The new event is not taken, and the new ids are free. */
  lemma EntryIsNew(t: Tables, b: Books, next: Books, created: int)
    requires Represents(t, b) && AddsEntry(b, next)
    ensures !JournalGuards.Taken(t.journals, OpenRow(next.journals[|b.journals|], created))
    ensures |b.journals| !in t.journals && |b.postings| !in t.postings && |b.postings| + 1 !in t.postings
  {
    var row := OpenRow(next.journals[|b.journals|], created);
    forall j | j in t.journals ensures !Conflicts(t.journals[j], row) {
      assert SameFacts(t.journals[j], b.journals[j]);
    }
  }

  /** The rows of an entry, added to the tables. */
  function WithEntry(t: Tables, b: Books, next: Books, created: int): Tables
    requires |next.journals| == |b.journals| + 1 && |next.postings| == |b.postings| + 2
  {
    var j, p := |b.journals|, |b.postings|;
    Tables(t.journals[j := OpenRow(next.journals[j], created).(posted := true)],
      t.postings[p := next.postings[p]][p + 1 := next.postings[p + 1]])
  }

  lemma JournalAdded(rows: JournalTable, journals: seq<Journal>, row: JournalRow, j: Journal)
    requires HoldJournals(rows, journals) && SameFacts(row, j)
    ensures HoldJournals(rows[|journals| := row], journals + [j])
  {
  }

  lemma PostingAdded(rows: PostingTable, postings: seq<Posting>, p: Posting)
    requires HoldPostings(rows, postings)
    ensures HoldPostings(rows[|postings| := p], postings + [p])
  {
  }

  lemma EntryRepresented(t: Tables, b: Books, next: Books, created: int)
    requires Represents(t, b) && AddsEntry(b, next)
    ensures Represents(WithEntry(t, b, next, created), next)
  {
    hide IsPair, HasEvent, HoldJournals, HoldPostings;
    var j, p := next.journals[|b.journals|], |b.postings|;
    assert next.journals == b.journals + [j];
    JournalAdded(t.journals, b.journals, OpenRow(j, created).(posted := true), j);
    assert next.postings == (b.postings + [next.postings[p]]) + [next.postings[p + 1]];
    PostingAdded(t.postings, b.postings, next.postings[p]);
    PostingAdded(t.postings[p := next.postings[p]], b.postings + [next.postings[p]], next.postings[p + 1]);
  }

  /** Before its commit, the transaction of an entry has the rows of the next books and passes every check. */
  lemma EntryWritten(s: Session, b: Books, next: Books, created: int)
    requires Fresh(s) && Represents(s.base, b) && AddsEntry(b, next)
    ensures var j, p := |b.journals|, |b.postings|;
      var t := Executed(s, EntryStatements(j, OpenRow(next.journals[j], created), p, next.postings[p], p + 1, next.postings[p + 1]));
      Commits(t) && Represents(t.tables, next)
  {
    var j, p := |b.journals|, |b.postings|;
    var row, d, c := OpenRow(next.journals[j], created), next.postings[p], next.postings[p + 1];
    EntryIsNew(s.tables, b, next, created);
    EntryRepresented(s.tables, b, next, created);
    assert EventFits(row) && References(s.tables);
    hide Executed, References, Represents, JournalGuards.Taken, EntryStatements, Guarded, CheckOf, Complete;
    EntryTables(s, j, row, p, d, p + 1, c, d.amount);
    EntryTripsNoGuard(s, j, row, p, d, p + 1, c, d.amount);
  }

  lemma CommitTakesOver(s: Session)
    requires Commits(s)
    ensures Execute(s, Commit) == Session(s.tables, s.tables, {}, false) && !s.broken
  {
  }

  /** Statements of a transaction that passes its checks, then the commit. */
  lemma CommittedSmoothly(s: Session, body: seq<Statement>)
    requires Fresh(s) && Commits(Executed(s, body))
    requires forall i | 0 <= i < |body| :: IsRow(body[i]) && !body[i].UpdatePosting?
    ensures var t := Executed(s, body + [Commit]);
      Smooth(s, body + [Commit]) && Fresh(t) && t.base == Executed(s, body).tables
  {
    var statements := body + [Commit];
    assert statements[..|statements| - 1] == body;
    hide Execute, Commits, TakesNothing, Sealed, Same, References;
    CommitTakesOver(Executed(s, body));
    UnbrokenIsSmooth(s, body);
    RowsTakeNothing(s, statements);
    CommittedJournalsAreFinal(s, statements);
  }

  /** The transaction of an entry runs smoothly from a sealed database to a sealed database with that entry. */
  lemma EntryIsCommitted(s: Session, b: Books, next: Books, created: int)
    requires Fresh(s) && Represents(s.base, b) && AddsEntry(b, next)
    ensures var statements := EntryTransaction(b, next, created);
      var t := Executed(s, statements);
      Smooth(s, statements) && Fresh(t) && Represents(t.base, next)
  {
    var j, p := |b.journals|, |b.postings|;
    var body := EntryStatements(j, OpenRow(next.journals[j], created), p, next.postings[p], p + 1, next.postings[p + 1]);
    assert EntryTransaction(b, next, created) == body + [Commit];
    assert forall i | 0 <= i < |body| :: IsRow(body[i]) && !body[i].UpdatePosting?;
    hide Represents, Fresh, Executed, Commits, Smooth, EntryTransaction;
    EntryWritten(s, b, next, created);
    CommittedSmoothly(s, body);
  }

  // ---------------------------------------------------------------- the entries of a run

  lemma PostAddsEntry(b: Books, id: Id, event: Event, owner: string, amount: int)
    requires event != Opening && PostEvent(b, id, event, owner, amount).Entered?
    ensures AddsEntry(b, PostEvent(b, id, event, owner, amount).books)
  {
  }

  /** A change of the tables writes at most one entry. */
  lemma ChangeAddsEntry(c: Config, db: Db, clock: int, change: Change)
    ensures var books := Changed(c, db, clock, change).books; books == db.books || AddsEntry(db.books, books)
  {
    hide AddsEntry, PostEvent;
    match change
    case Insertion(id, r, q) =>
      var amount := NewSettlement(r, q).amount;
      if PostEvent(db.books, id, Reserve, r.owner, amount).Entered? { PostAddsEntry(db.books, id, Reserve, r.owner, amount); }
    case Finalization(id, token, result) =>
      if id in db.settlements && Terminal(StatusFor(result)) {
        var s, event := db.settlements[id], if StatusFor(result) == SUCCESS then Consume else Release;
        if PostEvent(db.books, id, event, s.owner, s.amount).Entered? { PostAddsEntry(db.books, id, event, s.owner, s.amount); }
      }
    case BatchClaim(rows) => ClaimRowsFrame(db, rows, clock, c.leaseTime);
    case _ =>
  }

  /** The transactions of the entries of a run, in order. */
  ghost function RunTransactions(c: Config, w: World, actions: seq<Action>): seq<Statement> {
    if actions == [] then []
    else
      var init := actions[..|actions| - 1];
      RunTransactions(c, w, init)
        + EntryTransaction(Run(c, w, init).db.books, Run(c, w, actions).db.books, Run(c, w, init).clock)
  }

  lemma StepIsCommitted(c: Config, w: World, a: Action, s: Session)
    requires Fresh(s) && Represents(s.base, w.db.books)
    ensures var statements := EntryTransaction(w.db.books, Step(c, w, a).db.books, w.clock);
      var t := Executed(s, statements);
      Smooth(s, statements) && Fresh(t) && Represents(t.base, Step(c, w, a).db.books)
  {
    ChangeAddsEntry(c, w.db, w.clock, ChangeOf(w, a));
    hide Fresh, Represents, Changed, ChangeOf, AddsEntry;
    var books := Step(c, w, a).db.books;
    if AddsEntry(w.db.books, books) {
      EntryIsCommitted(s, w.db.books, books, w.clock);
    } else {
      assert EntryTransaction(w.db.books, books, w.clock) == [];
    }
  }

  /** From a sealed database that holds the books of the first state, the entries of any run are accepted one after the
      other, and leave a sealed database that holds the books of the last. */
  lemma {:induction false} RunIsRecorded(c: Config, w: World, actions: seq<Action>, s: Session)
    requires Fresh(s) && Represents(s.base, w.db.books)
    ensures var statements := RunTransactions(c, w, actions);
      var t := Executed(s, statements);
      Smooth(s, statements) && Fresh(t) && Sealed(t.base) && Represents(t.base, Run(c, w, actions).db.books)
  {
    hide Represents, Step, Sealed, Execute, EntryTransaction;
    if actions == [] {
      assert Executed(s, []) == s;
    } else {
      var init, a := actions[..|actions| - 1], actions[|actions| - 1];
      RunIsRecorded(c, w, init, s);
      var before, mid := Run(c, w, init), Executed(s, RunTransactions(c, w, init));
      StepIsCommitted(c, before, a, mid);
      var last := EntryTransaction(before.db.books, Step(c, before, a).db.books, before.clock);
      SmoothConcat(s, RunTransactions(c, w, init), last);
      ExecutedConcat(s, RunTransactions(c, w, init), last);
    }
  }

  // ---------------------------------------------------------------- from the seed on

  const UNUSED := Session(Tables(map[], map[]), Tables(map[], map[]), {}, false)

  lemma SeedIsRecorded(owner: string, amount: int)
    requires amount > 0
    ensures var statements := EntryTransaction(EMPTY, OpenedBooks(EMPTY, owner, amount), 0);
      var t := Executed(UNUSED, statements);
      Smooth(UNUSED, statements) && Fresh(t) && Represents(t.base, OpenedBooks(EMPTY, owner, amount))
  {
    assert AddsEntry(EMPTY, OpenedBooks(EMPTY, owner, amount));
    assert Fresh(UNUSED) && Represents(UNUSED.base, EMPTY);
    hide AddsEntry, Fresh, Represents;
    EntryIsCommitted(UNUSED, EMPTY, OpenedBooks(EMPTY, owner, amount), 0);
  }

  /** An unused database takes the opening entry of the seed and then the entries of any run, and ends sealed with
      exactly the books of that run. */
  lemma SeededRunIsRecorded(c: Config, w: World, owner: string, amount: int, actions: seq<Action>)
    requires amount > 0 && w.db == Db(OpenedBooks(EMPTY, owner, amount), map[], map[])
    ensures var statements := EntryTransaction(EMPTY, w.db.books, 0) + RunTransactions(c, w, actions);
      var t := Executed(UNUSED, statements);
      Smooth(UNUSED, statements) && !t.broken && Sealed(t.base) && Represents(t.base, Run(c, w, actions).db.books)
  {
    hide Represents, Sealed, EntryTransaction, Run, RunTransactions, Smooth, Executed, OpenedBooks;
    var opening := EntryTransaction(EMPTY, w.db.books, 0);
    SeedIsRecorded(owner, amount);
    var seeded := Executed(UNUSED, opening);
    RunIsRecorded(c, w, actions, seeded);
    SmoothConcat(UNUSED, opening, RunTransactions(c, w, actions));
    ExecutedConcat(UNUSED, opening, RunTransactions(c, w, actions));
  }
}
