/** Seeding the demo accounts, and seeding again after any amount of history (app/seed.py). */
module Seed {
  import opened Options
  import opened Routing
  import opened Sums
  import opened Ledger
  import opened Service
  import opened Accounting
  import opened Protocol

  const OMNIBUS_USDC := AccountKey("system", USDC, Omnibus)

  datatype SeedError = Inconsistent | Rejected

  datatype SeedResult = Seeded(books: Books) | Failed(error: SeedError)

  function SeedAccountKeys(owner: string): set<AccountKey> {
    {AvailableOf(owner), ReservedOf(owner), OMNIBUS_USD, OMNIBUS_USDC}
  }

  /** The indices of the opening journals. */
  function Openings(journals: seq<Journal>): set<nat> {
    set j: nat | j < |journals| && journals[j].event == Opening && journals[j].settlement.None?
  }

  function PostingsOf(postings: seq<Posting>, j: nat): seq<Posting> {
    if postings == [] then []
    else
      var p := postings[|postings| - 1];
      PostingsOf(postings[..|postings| - 1], j) + (if p.journal == j then [p] else [])
  }

  function OpeningPostings(owner: string, amount: int, j: nat): multiset<Posting> {
    multiset{Posting(j, OMNIBUS_USD, USD, Debit, amount), Posting(j, AvailableOf(owner), USD, Credit, amount)}
  }

  /** The checks on accounts that are already there. */
  ghost predicate ValidSeed(b: Books, owner: string, amount: int) {
    && SeedAccountKeys(owner) <= b.accounts.Keys
    && b.accounts[AvailableOf(owner)].kind == LIABILITY && b.accounts[ReservedOf(owner)].kind == LIABILITY
    && b.accounts[OMNIBUS_USD].kind == ASSET && b.accounts[OMNIBUS_USDC].kind == ASSET
    && (exists j :: Openings(b.journals) == {j} && multiset(PostingsOf(b.postings, j)) == OpeningPostings(owner, amount, j))
    && Sound(b)
  }

  function OpenedAccounts(accounts: Accounts, owner: string, amount: int): Accounts {
    accounts[OMNIBUS_USD := Account(ASSET, amount)][OMNIBUS_USDC := Account(ASSET, 0)]
            [AvailableOf(owner) := Account(LIABILITY, amount)][ReservedOf(owner) := Account(LIABILITY, 0)]
  }

  function OpenedBooks(b: Books, owner: string, amount: int): Books {
    var j := |b.journals|;
    Books(
      OpenedAccounts(b.accounts, owner, amount),
      b.journals + [Journal(None, Opening, true)],
      b.postings + [Posting(j, OMNIBUS_USD, USD, Debit, amount), Posting(j, AvailableOf(owner), USD, Credit, amount)])
  }

  ghost function SeedDemo(b: Books, owner: string, amount: int): SeedResult {
    var loaded := SeedAccountKeys(owner) * b.accounts.Keys;
    if AvailableOf(owner) in loaded && ReservedOf(owner) in loaded then
      if ValidSeed(b, owner, amount) then Seeded(b) else Failed(Inconsistent)
    else if loaded != {} || (exists j | 0 <= j < |b.journals| :: b.journals[j].event == Opening) then Failed(Inconsistent)
    else if amount <= 0 then Failed(Rejected)
    else if ValidSeed(OpenedBooks(b, owner, amount), owner, amount) then Seeded(OpenedBooks(b, owner, amount))
    else Failed(Inconsistent)
  }

  // ---------------------------------------------------------------- the program

  method CollectPostings(postings: seq<Posting>, j: nat) returns (r: seq<Posting>)
    ensures r == PostingsOf(postings, j)
  {
    r := [];
    for i := 0 to |postings|
      invariant r == PostingsOf(postings[..i], j)
    {
      assert postings[..i + 1][..i] == postings[..i];
      if postings[i].journal == j {
        r := r + [postings[i]];
      }
    }
    assert postings[..|postings|] == postings;
  }

  method ValidateExistingSeed(b: Books, owner: string, amount: int) returns (ok: bool)
    requires Referential(b)
    ensures ok <==> ValidSeed(b, owner, amount)
  {
    if !(SeedAccountKeys(owner) <= b.accounts.Keys) {
      return false;
    }
    if b.accounts[AvailableOf(owner)].kind != LIABILITY || b.accounts[ReservedOf(owner)].kind != LIABILITY
       || b.accounts[OMNIBUS_USD].kind != ASSET || b.accounts[OMNIBUS_USDC].kind != ASSET {
      return false;
    }
    var openings := Openings(b.journals);
    if |openings| != 1 {
      return false;
    }
    var j :| j in openings;
    OneMember(openings, j);
    var actual := CollectPostings(b.postings, j);
    if multiset(actual) != OpeningPostings(owner, amount, j) {
      return false;
    }
    var verdict := AssertLedgerInvariants(b);
    ok := verdict == Passed;
  }

  lemma OneMember(s: set<nat>, j: nat)
    requires |s| == 1 && j in s
    ensures s == {j}
  {
    assert |s - {j}| == 0;
    assert s == (s - {j}) + {j};
  }

  /** Creates the accounts at zero, writes the opening journal and moves the balances. */
  method OpenAccounts(ledger: LedgerTables, owner: string, amount: int) returns (ok: bool)
    modifies ledger
    ensures ok <==> amount > 0
    ensures ledger.Contents() == if ok then OpenedBooks(old(ledger.Contents()), owner, amount) else old(ledger.Contents())
  {
    var before := ledger.Contents();
    ledger.accounts := ledger.accounts[OMNIBUS_USD := Account(ASSET, 0)][OMNIBUS_USDC := Account(ASSET, 0)]
                                      [AvailableOf(owner) := Account(LIABILITY, 0)][ReservedOf(owner) := Account(LIABILITY, 0)];
    var journal := |ledger.journals|;
    ledger.journals := ledger.journals + [Journal(None, Opening, false)];
    ledger.postings := ledger.postings + [Posting(journal, OMNIBUS_USD, USD, Debit, amount), Posting(journal, AvailableOf(owner), USD, Credit, amount)];
    ok := ledger.ApplyPosting(OMNIBUS_USD, Debit, amount);
    if ok {
      ok := ledger.ApplyPosting(AvailableOf(owner), Credit, amount);
    }
    ok := ok && amount > 0;
    if !ok {
      ledger.accounts, ledger.journals, ledger.postings := before.accounts, before.journals, before.postings;
      return;
    }
    ledger.journals := ledger.journals[journal := Journal(None, Opening, true)];
    assert ledger.journals == before.journals + [Journal(None, Opening, true)];
    assert ledger.accounts == OpenedAccounts(before.accounts, owner, amount);
  }

  lemma OpenedReferential(b: Books, owner: string, amount: int)
    requires Referential(b)
    ensures Referential(OpenedBooks(b, owner, amount))
  {
  }

  /** Validates what is there, or opens the accounts and then checks its own work; a failure rolls everything back. */
  method SeedDemoAccounts(ledger: LedgerTables, owner: string, amount: int) returns (failed: Option<SeedError>)
    requires Referential(ledger.Contents())
    modifies ledger
    ensures failed.None? ==> SeedDemo(old(ledger.Contents()), owner, amount) == Seeded(ledger.Contents())
    ensures failed.Some? ==> SeedDemo(old(ledger.Contents()), owner, amount) == Failed(failed.value)
    ensures failed.Some? ==> ledger.Contents() == old(ledger.Contents())
  {
    hide ValidSeed, Referential, OpenedBooks;
    OpenedReferential(ledger.Contents(), owner, amount);
    var loaded := SeedAccountKeys(owner) * ledger.accounts.Keys;
    if AvailableOf(owner) in loaded && ReservedOf(owner) in loaded {
      var ok := ValidateExistingSeed(ledger.Contents(), owner, amount);
      return if ok then None else Some(Inconsistent);
    }
    if loaded != {} || exists j | 0 <= j < |ledger.journals| :: ledger.journals[j].event == Opening {
      return Some(Inconsistent);
    }
    var before := ledger.Contents();
    var ok := OpenAccounts(ledger, owner, amount);
    if !ok {
      return Some(Rejected);
    }
    var valid := ValidateExistingSeed(ledger.Contents(), owner, amount);
    if !valid {
      ledger.accounts, ledger.journals, ledger.postings := before.accounts, before.journals, before.postings;
      return Some(Inconsistent);
    }
    failed := None;
  }

  // ---------------------------------------------------------------- a fresh seed

  const EMPTY := Books(map[], [], [])

  function SeededOpening(owner: string, amount: int): OpeningBalances { OpeningBalances(map[owner := amount], amount) }

  lemma OpenedLiabilities(owner: string, amount: int)
    ensures Total(OpenedAccounts(map[], owner, amount), LiabilityWeight()) == amount
  {
    var a0: Accounts := map[];
    var a1 := a0[OMNIBUS_USD := Account(ASSET, amount)];
    var a2 := a1[OMNIBUS_USDC := Account(ASSET, 0)];
    var a3 := a2[AvailableOf(owner) := Account(LIABILITY, amount)];
    TotalInsert(a0, LiabilityWeight(), OMNIBUS_USD, Account(ASSET, amount));
    TotalInsert(a1, LiabilityWeight(), OMNIBUS_USDC, Account(ASSET, 0));
    TotalInsert(a2, LiabilityWeight(), AvailableOf(owner), Account(LIABILITY, amount));
    TotalInsert(a3, LiabilityWeight(), ReservedOf(owner), Account(LIABILITY, 0));
  }

  lemma OpenedSound(owner: string, amount: int)
    requires amount > 0
    ensures BooksSound(OpenedBooks(EMPTY, owner, amount))
  {
    var d, c := Posting(0, OMNIBUS_USD, USD, Debit, amount), Posting(0, AvailableOf(owner), USD, Credit, amount);
    var zero := OpenedAccounts(map[], owner, 0);
    var base := Books(zero, [], []);
    PairKeepsBalance([], d, c);
    var debited := zero[d.account := Moved(zero[d.account], d.side, d.amount)];
    var credited := debited[c.account := Moved(debited[c.account], c.side, c.amount)];
    EntryReplayed(base, d, c, debited, credited);
    assert credited == OpenedAccounts(map[], owner, amount);
  }

  lemma OpenedChart(owner: string, amount: int)
    ensures Chart(OpenedAccounts(map[], owner, amount), SeededOpening(owner, amount))
  {
    var accounts, opening := OpenedAccounts(map[], owner, amount), SeededOpening(owner, amount);
    forall o ensures OwnerCharted(accounts, opening, o) {
      if o != owner {
        assert AvailableOf(o) != AvailableOf(owner) && ReservedOf(o) != ReservedOf(owner);
      }
    }
  }

  lemma OpenedPostings(owner: string, amount: int)
    ensures multiset(PostingsOf(OpenedBooks(EMPTY, owner, amount).postings, 0)) == OpeningPostings(owner, amount, 0)
  {
    var d, c := Posting(0, OMNIBUS_USD, USD, Debit, amount), Posting(0, AvailableOf(owner), USD, Credit, amount);
    assert [d, c][..1] == [d];
    assert PostingsOf([d], 0) == [d];
    assert PostingsOf([d, c], 0) == [d, c];
  }

  lemma FreshConsistent(owner: string, amount: int)
    requires amount > 0
    ensures Consistent(Db(OpenedBooks(EMPTY, owner, amount), map[], map[]), SeededOpening(owner, amount))
  {
    var b := OpenedBooks(EMPTY, owner, amount);
    OpenedSound(owner, amount);
    OpenedChart(owner, amount);
    OpenedLiabilities(owner, amount);
    hide BooksSound, Chart;
    assert Money(b.accounts, map[], SeededOpening(owner, amount));
    assert Journaled(b.journals, map[]);
  }

  lemma OpenedKinds(owner: string, amount: int)
    ensures var accounts := OpenedAccounts(map[], owner, amount);
      && SeedAccountKeys(owner) <= accounts.Keys
      && accounts[AvailableOf(owner)].kind == LIABILITY && accounts[ReservedOf(owner)].kind == LIABILITY
      && accounts[OMNIBUS_USD].kind == ASSET && accounts[OMNIBUS_USDC].kind == ASSET
  {
  }

  lemma OneOpening(owner: string, amount: int)
    ensures Openings(OpenedBooks(EMPTY, owner, amount).journals) == {0}
  {
    hide OpenedAccounts;
  }

  lemma FreshValid(owner: string, amount: int)
    requires amount > 0
    ensures ValidSeed(OpenedBooks(EMPTY, owner, amount), owner, amount)
  {
    assert OpenedBooks(EMPTY, owner, amount).accounts == OpenedAccounts(map[], owner, amount);
    hide Sound, PostingsOf, OpeningPostings, Openings, OpenedBooks, OpenedAccounts;
    OpenedSound(owner, amount);
    OpenedPostings(owner, amount);
    OneOpening(owner, amount);
    OpenedKinds(owner, amount);
  }

  lemma NothingLoaded(owner: string)
    ensures SeedAccountKeys(owner) * EMPTY.accounts.Keys == {} && EMPTY.journals == []
  {
  }

  lemma FreshSeeded(owner: string, amount: int)
    requires amount > 0
    ensures SeedDemo(EMPTY, owner, amount) == Seeded(OpenedBooks(EMPTY, owner, amount))
  {
    hide ValidSeed, OpenedBooks, SeedAccountKeys;
    FreshValid(owner, amount);
    NothingLoaded(owner);
  }

  /** Seeding an empty ledger with a positive amount succeeds and gives a state the protocol may start from. */
  lemma FreshSeed(w: World, owner: string, amount: int)
    requires amount > 0
    requires w.db == Db(OpenedBooks(EMPTY, owner, amount), map[], map[])
    requires w.ops == map[] && w.position == 0 && w.calls == [] && w.issued == []
    ensures SeedDemo(EMPTY, owner, amount) == Seeded(w.db.books)
    ensures Initial(w, SeededOpening(owner, amount))
  {
    hide Consistent, SeedDemo, OpenedBooks;
    FreshConsistent(owner, amount);
    FreshSeeded(owner, amount);
  }

  // ---------------------------------------------------------------- history is only appended

  /** The books only grow: same accounts, earlier journals and postings in place, later journals for settlements. */
  ghost predicate Grown(before: Books, after: Books) {
    && after.accounts.Keys == before.accounts.Keys
    && (forall k | k in before.accounts :: after.accounts[k].kind == before.accounts[k].kind)
    && before.journals <= after.journals && before.postings <= after.postings
    && (forall j | |before.journals| <= j < |after.journals| :: after.journals[j].settlement.Some?)
    && (forall i | |before.postings| <= i < |after.postings| :: after.postings[i].journal >= |before.journals|)
  }

  lemma GrownTransitive(a: Books, b: Books, c: Books)
    requires Grown(a, b) && Grown(b, c)
    ensures Grown(a, c)
  {
    forall i | |a.postings| <= i < |c.postings| ensures c.postings[i].journal >= |a.journals| {
      if i < |b.postings| { assert c.postings[i] == b.postings[i]; }
    }
    forall j | |a.journals| <= j < |c.journals| ensures c.journals[j].settlement.Some? {
      if j < |b.journals| { assert c.journals[j] == b.journals[j]; }
    }
  }

  lemma PostGrows(b: Books, id: Id, event: Event, owner: string, amount: int)
    requires event != Opening && PostEvent(b, id, event, owner, amount).Entered?
    ensures Grown(b, PostEvent(b, id, event, owner, amount).books)
  {
  }

  lemma GrownSelf(b: Books)
    ensures Grown(b, b)
  {
  }

  lemma ChangeGrows(c: Config, db: Db, clock: int, change: Change)
    ensures Grown(db.books, Changed(c, db, clock, change).books)
  {
    hide Grown, PostEvent;
    GrownSelf(db.books);
    match change
    case Insertion(id, r, q) =>
      var amount := NewSettlement(r, q).amount;
      if PostEvent(db.books, id, Reserve, r.owner, amount).Entered? { PostGrows(db.books, id, Reserve, r.owner, amount); }
    case Finalization(id, token, result) =>
      if id in db.settlements && Terminal(StatusFor(result)) {
        var s, event := db.settlements[id], if StatusFor(result) == SUCCESS then Consume else Release;
        if PostEvent(db.books, id, event, s.owner, s.amount).Entered? { PostGrows(db.books, id, event, s.owner, s.amount); }
      }
    case BatchClaim(rows) => ClaimRowsFrame(db, rows, clock, c.leaseTime);
    case _ =>
  }

  /** In all runs the journals and postings already written stay in place, and no account appears or changes class. */
  lemma {:induction false} HistoryIsAppendOnly(c: Config, w: World, actions: seq<Action>)
    ensures Grown(w.db.books, Run(c, w, actions).db.books)
  {
    hide Grown, Changed, ChangeOf;
    if actions == [] {
      GrownSelf(w.db.books);
    } else {
      var init, a := actions[..|actions| - 1], actions[|actions| - 1];
      HistoryIsAppendOnly(c, w, init);
      var before := Run(c, w, init);
      ChangeGrows(c, before.db, before.clock, ChangeOf(before, a));
      GrownTransitive(w.db.books, before.db.books, Step(c, before, a).db.books);
    }
  }

  // ---------------------------------------------------------------- seeding again

  lemma {:induction false} LaterPostings(postings: seq<Posting>, more: seq<Posting>, j: nat)
    requires forall i | 0 <= i < |more| :: more[i].journal != j
    ensures PostingsOf(postings + more, j) == PostingsOf(postings, j)
  {
    if more == [] {
      assert postings + more == postings;
    } else {
      var init := more[..|more| - 1];
      assert (postings + more)[..|postings + more| - 1] == postings + init;
      LaterPostings(postings, init, j);
    }
  }

  lemma OpeningKept(before: Books, after: Books)
    requires Grown(before, after) && Openings(before.journals) == {0}
    ensures Openings(after.journals) == {0} && PostingsOf(after.postings, 0) == PostingsOf(before.postings, 0)
  {
    var more := after.postings[|before.postings|..];
    assert after.postings == before.postings + more;
    assert 0 in Openings(before.journals);
    LaterPostings(before.postings, more, 0);
    forall j: nat ensures j in Openings(after.journals) <==> j in Openings(before.journals) {
      if j < |before.journals| { assert after.journals[j] == before.journals[j]; }
    }
  }

  /** The postings of an opening journal tell its owner and amount. */
  lemma OpeningPostingsIdentify(owner: string, amount: int, o: string, a: int)
    requires OpeningPostings(owner, amount, 0) == OpeningPostings(o, a, 0)
    ensures o == owner && a == amount
  {
    assert Posting(0, AvailableOf(o), USD, Credit, a) in OpeningPostings(owner, amount, 0);
  }

  lemma SeededChart(b: Books, end: Books, owner: string, amount: int)
    requires b == OpenedBooks(EMPTY, owner, amount) && Grown(b, end)
    ensures end.accounts.Keys == SeedAccountKeys(owner)
    ensures end.accounts[AvailableOf(owner)].kind == LIABILITY && end.accounts[ReservedOf(owner)].kind == LIABILITY
    ensures end.accounts[OMNIBUS_USD].kind == ASSET && end.accounts[OMNIBUS_USDC].kind == ASSET
  {
    hide PostingsOf, OpeningPostings, Openings;
    assert b.accounts.Keys == SeedAccountKeys(owner);
  }

  lemma SeededOpeningKept(b: Books, end: Books, owner: string, amount: int)
    requires b == OpenedBooks(EMPTY, owner, amount) && Grown(b, end)
    ensures Openings(end.journals) == {0}
    ensures multiset(PostingsOf(end.postings, 0)) == OpeningPostings(owner, amount, 0)
  {
    OpenedPostings(owner, amount);
    assert Openings(b.journals) == {0};
    hide *;
    OpeningKept(b, end);
  }

  /** What any later state of a seeded ledger says about its opening. */
  lemma SeededHistory(b: Books, end: Books, owner: string, amount: int)
    requires b == OpenedBooks(EMPTY, owner, amount) && Grown(b, end) && Sound(end)
    ensures ValidSeed(end, owner, amount)
    ensures forall o, a :: ValidSeed(end, o, a) ==> o == owner && a == amount
    ensures end.accounts.Keys == SeedAccountKeys(owner)
  {
    hide Grown, Sound, PostingsOf, OpeningPostings, Openings, OpenedBooks;
    SeededChart(b, end, owner, amount);
    SeededOpeningKept(b, end, owner, amount);
    forall o, a | ValidSeed(end, o, a) ensures o == owner && a == amount {
      var j :| Openings(end.journals) == {j} && multiset(PostingsOf(end.postings, j)) == OpeningPostings(o, a, j);
      assert j in Openings(end.journals);
      OpeningPostingsIdentify(owner, amount, o, a);
    }
  }

  /** After any run from a seeded ledger, whatever was reserved, consumed or released, seeding again validates and
      changes nothing exactly when owner and amount are the same; otherwise it is refused as inconsistent. */
  lemma SeedingAgain(c: Config, w: World, owner: string, amount: int, actions: seq<Action>, o: string, a: int)
    requires amount > 0
    requires w.db == Db(OpenedBooks(EMPTY, owner, amount), map[], map[])
    requires w.ops == map[] && w.position == 0 && w.calls == [] && w.issued == []
    ensures var books := Run(c, w, actions).db.books;
      SeedDemo(books, o, a) == if o == owner && a == amount then Seeded(books) else Failed(Inconsistent)
  {
    hide Run, Initial, Consistent, Grown;
    FreshSeed(w, owner, amount);
    HistoryIsAppendOnly(c, w, actions);
    SoundAfter(c, w, owner, amount, actions);
    SeedOutcome(w.db.books, Run(c, w, actions).db.books, owner, amount, o, a);
  }

  lemma SoundAfter(c: Config, w: World, owner: string, amount: int, actions: seq<Action>)
    requires Initial(w, SeededOpening(owner, amount))
    ensures Sound(Run(c, w, actions).db.books)
  {
    AlwaysConsistent(c, w, SeededOpening(owner, amount), actions);
    hide Run, Sound, Money;
  }

  lemma SeedOutcome(b: Books, books: Books, owner: string, amount: int, o: string, a: int)
    requires b == OpenedBooks(EMPTY, owner, amount) && Grown(b, books) && Sound(books)
    ensures SeedDemo(books, o, a) == if o == owner && a == amount then Seeded(books) else Failed(Inconsistent)
  {
    hide Grown, Sound;
    SeededHistory(b, books, owner, amount);
    assert OMNIBUS_USD in SeedAccountKeys(o) * books.accounts.Keys;
    if o != owner {
      assert AvailableOf(o) != AvailableOf(owner);
      assert AvailableOf(o) !in books.accounts;
    }
  }

  // ---------------------------------------------------------------- the seed in full

  /** What seeding an unused ledger leaves, account by account and posting by posting. */
  lemma FreshLedger(owner: string, amount: int)
    requires amount > 0
    ensures SeedDemo(EMPTY, owner, amount) == Seeded(Books(
      map[AccountKey("system", USD, Omnibus) := Account(ASSET, amount), AccountKey("system", USDC, Omnibus) := Account(ASSET, 0),
          AccountKey(owner, USD, Available) := Account(LIABILITY, amount), AccountKey(owner, USD, Reserved) := Account(LIABILITY, 0)],
      [Journal(None, Opening, true)],
      [Posting(0, AccountKey("system", USD, Omnibus), USD, Debit, amount), Posting(0, AccountKey(owner, USD, Available), USD, Credit, amount)]))
  {
    hide SeedDemo;
    FreshSeeded(owner, amount);
  }

  /** A seed is rejected for its amount exactly where nothing of it is there yet and the amount is not positive. */
  lemma RejectedIffNotPositive(b: Books, owner: string, amount: int)
    ensures SeedDemo(b, owner, amount) == Failed(Rejected) <==>
      && amount <= 0
      && AccountKey(owner, USD, Available) !in b.accounts && AccountKey(owner, USD, Reserved) !in b.accounts
      && AccountKey("system", USD, Omnibus) !in b.accounts && AccountKey("system", USDC, Omnibus) !in b.accounts
      && forall j | 0 <= j < |b.journals| :: b.journals[j].event != Opening
  {
    hide ValidSeed;
    var loaded := SeedAccountKeys(owner) * b.accounts.Keys;
    assert loaded == {} <==> forall k | k in SeedAccountKeys(owner) :: k !in b.accounts by {
      if k :| k in SeedAccountKeys(owner) && k in b.accounts { assert k in loaded; }
    }
  }

  /** Any one defect of what is already there is refused: an account missing or of the wrong class, no opening journal or more
      than one, opening postings that are not these, or books that do not pass the audit. */
  lemma DefectsAreRefused(b: Books, owner: string, amount: int)
    requires AccountKey(owner, USD, Available) in b.accounts && AccountKey(owner, USD, Reserved) in b.accounts
    requires
      || AccountKey("system", USD, Omnibus) !in b.accounts || AccountKey("system", USDC, Omnibus) !in b.accounts
      || b.accounts[AccountKey(owner, USD, Available)].kind != LIABILITY || b.accounts[AccountKey(owner, USD, Reserved)].kind != LIABILITY
      || b.accounts[AccountKey("system", USD, Omnibus)].kind != ASSET || b.accounts[AccountKey("system", USDC, Omnibus)].kind != ASSET
      || |Openings(b.journals)| != 1
      || (exists j | j in Openings(b.journals) :: multiset(PostingsOf(b.postings, j)) != multiset{
           Posting(j, AccountKey("system", USD, Omnibus), USD, Debit, amount), Posting(j, AccountKey(owner, USD, Available), USD, Credit, amount)})
      || !Sound(b)
    ensures SeedDemo(b, owner, amount) == Failed(Inconsistent)
  {
    hide Sound, PostingsOf, Openings, ValidSeed;
    if ValidSeed(b, owner, amount) { ValidHasNoDefect(b, owner, amount); }
  }

  lemma ValidHasNoDefect(b: Books, owner: string, amount: int)
    requires ValidSeed(b, owner, amount)
    ensures AccountKey("system", USD, Omnibus) in b.accounts && AccountKey("system", USDC, Omnibus) in b.accounts
    ensures AccountKey(owner, USD, Available) in b.accounts && AccountKey(owner, USD, Reserved) in b.accounts
    ensures b.accounts[AccountKey(owner, USD, Available)].kind == LIABILITY && b.accounts[AccountKey(owner, USD, Reserved)].kind == LIABILITY
    ensures b.accounts[AccountKey("system", USD, Omnibus)].kind == ASSET && b.accounts[AccountKey("system", USDC, Omnibus)].kind == ASSET
    ensures |Openings(b.journals)| == 1 && Sound(b)
    ensures forall j | j in Openings(b.journals) :: multiset(PostingsOf(b.postings, j)) == multiset{
      Posting(j, AccountKey("system", USD, Omnibus), USD, Debit, amount), Posting(j, AccountKey(owner, USD, Available), USD, Credit, amount)}
  {
    hide Sound, PostingsOf, Openings;
    var j :| Openings(b.journals) == {j} && multiset(PostingsOf(b.postings, j)) == OpeningPostings(owner, amount, j);
  }

  /** With only part of the accounts there, or an opening journal without the customer's accounts, seeding is refused. */
  lemma HalfSeededIsRefused(b: Books, owner: string, amount: int)
    requires AccountKey(owner, USD, Available) !in b.accounts || AccountKey(owner, USD, Reserved) !in b.accounts
    requires
      || AccountKey(owner, USD, Available) in b.accounts || AccountKey(owner, USD, Reserved) in b.accounts
      || AccountKey("system", USD, Omnibus) in b.accounts || AccountKey("system", USDC, Omnibus) in b.accounts
      || (exists j | 0 <= j < |b.journals| :: b.journals[j].event == Opening)
    ensures SeedDemo(b, owner, amount) == Failed(Inconsistent)
  {
    hide ValidSeed;
    var loaded := SeedAccountKeys(owner) * b.accounts.Keys;
    assert AvailableOf(owner) in b.accounts ==> AvailableOf(owner) in loaded;
    assert ReservedOf(owner) in b.accounts ==> ReservedOf(owner) in loaded;
    assert OMNIBUS_USD in b.accounts ==> OMNIBUS_USD in loaded;
    assert OMNIBUS_USDC in b.accounts ==> OMNIBUS_USDC in loaded;
  }
}
