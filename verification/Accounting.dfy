/** The accounting facts that every transaction of the service keeps. */
module Accounting {
  import opened Options
  import opened Routing
  import opened Fingerprint
  import opened Sums
  import opened Ledger
  import opened Provider
  import opened Service

  type Accounts = map<AccountKey, Account>

  type Settlements = map<Id, Settlement>

  /** The customers' opening amounts and the opening balance of the Omnibus account. */
  datatype OpeningBalances = OpeningBalances(owners: map<string, int>, omnibus: int)

  function OpenWeight(o: string): (Id, Settlement) -> int {
    (id: Id, s: Settlement) => if s.owner == o && Open(s.status) then s.amount else 0
  }

  function HeldWeight(o: string): (Id, Settlement) -> int {
    (id: Id, s: Settlement) => if s.owner == o && s.status != FAILED then s.amount else 0
  }

  function PaidWeight(): (Id, Settlement) -> int {
    (id: Id, s: Settlement) => if s.status == SUCCESS then s.amount else 0
  }

  function LiabilityWeight(): (AccountKey, Account) -> int {
    (k: AccountKey, a: Account) => if k.currency == USD && a.kind == LIABILITY then a.balance else 0
  }

  /** The chart of accounts: each owner's two liabilities and the Omnibus asset. */
  ghost predicate Chart(accounts: Accounts, opening: OpeningBalances) {
    && OMNIBUS_USD in accounts && accounts[OMNIBUS_USD].kind == ASSET
    && (forall o :: OwnerCharted(accounts, opening, o))
  }

  ghost predicate OwnerCharted(accounts: Accounts, opening: OpeningBalances, o: string) {
    && (AvailableOf(o) in accounts <==> o in opening.owners)
    && (ReservedOf(o) in accounts <==> o in opening.owners)
    && (o in opening.owners ==> accounts[AvailableOf(o)].kind == LIABILITY && accounts[ReservedOf(o)].kind == LIABILITY)
  }

  /** What an owner's two balances are, in terms of that owner's settlements. */
  ghost predicate OwnerBalances(accounts: Accounts, settlements: Settlements, opening: OpeningBalances, o: string) {
    && o in opening.owners && AvailableOf(o) in accounts && ReservedOf(o) in accounts
    && accounts[ReservedOf(o)].balance == Total(settlements, OpenWeight(o))
    && accounts[AvailableOf(o)].balance == opening.owners[o] - Total(settlements, HeldWeight(o))
  }

  ghost predicate OwnersMatch(accounts: Accounts, settlements: Settlements, opening: OpeningBalances) {
    forall o | o in opening.owners :: OwnerBalances(accounts, settlements, opening, o)
  }

  /** Assets equal liabilities, and the Omnibus account has paid out exactly the successful settlements. */
  ghost predicate OmnibusMatches(accounts: Accounts, settlements: Settlements, opening: OpeningBalances) {
    && OMNIBUS_USD in accounts
    && accounts[OMNIBUS_USD].balance == opening.omnibus - Total(settlements, PaidWeight())
    && accounts[OMNIBUS_USD].balance == Total(accounts, LiabilityWeight())
  }

  ghost predicate RowsOwned(settlements: Settlements, opening: OpeningBalances) {
    forall id | id in settlements :: settlements[id].owner in opening.owners && settlements[id].amount > 0
  }

  ghost predicate BooksSound(b: Books) { Sound(b) && Referential(b) }

  /** What the balances say about the settlements. */
  ghost predicate Money(accounts: Accounts, settlements: Settlements, opening: OpeningBalances) {
    && Chart(accounts, opening)
    && OwnersMatch(accounts, settlements, opening)
    && OmnibusMatches(accounts, settlements, opening)
    && RowsOwned(settlements, opening)
  }

  ghost predicate Balanced(db: Db, opening: OpeningBalances) {
    BooksSound(db.books) && Money(db.books.accounts, db.settlements, opening)
  }

  ghost predicate UniqueEvents(journals: seq<Journal>) {
    forall i, j | 0 <= i < j < |journals| ::
      journals[i].settlement.Some? ==>
        !(journals[i].settlement == journals[j].settlement && journals[i].event == journals[j].event)
  }

  ghost predicate WellPosted(journals: seq<Journal>) {
    forall j | 0 <= j < |journals| ::
      journals[j].posted && (journals[j].event == Opening <==> journals[j].settlement.None?)
  }

  /** Which events a settlement must have in its present state. */
  predicate Expected(settlements: Settlements, id: Id, event: Event) {
    && id in settlements
    && match event
       case Opening => false
       case Reserve => true
       case Consume => settlements[id].status == SUCCESS
       case Release => settlements[id].status == FAILED
  }

  /** Each settlement has one RESERVE journal, and one CONSUME or RELEASE journal exactly when it has ended that way. */
  ghost predicate EventsMatch(journals: seq<Journal>, settlements: Settlements) {
    forall id, event :: HasEvent(journals, id, event) <==> Expected(settlements, id, event)
  }

  ghost predicate Journaled(journals: seq<Journal>, settlements: Settlements) {
    UniqueEvents(journals) && WellPosted(journals) && EventsMatch(journals, settlements)
  }

  /** An attempt exists once a settlement has left RESERVED, and is completed exactly when it has ended. */
  ghost predicate Tracked(settlements: Settlements, attempts: map<Id, Attempt>) {
    && (forall id | id in attempts ::
      id in settlements && attempts[id].token > 0
      && (attempts[id].state == Completed <==> Terminal(settlements[id].status)))
    && (forall id | id in settlements :: settlements[id].status == RESERVED <==> id !in attempts)
  }

  ghost predicate UniqueKeys(settlements: Settlements) {
    forall a, b | a in settlements && b in settlements ::
      settlements[a].owner == settlements[b].owner && settlements[a].key == settlements[b].key ==> a == b
  }

  /** The invariant of the tables. */
  ghost predicate Consistent(db: Db, opening: OpeningBalances) {
    && Balanced(db, opening)
    && Journaled(db.books.journals, db.settlements)
    && Tracked(db.settlements, db.attempts)
    && UniqueKeys(db.settlements)
  }

  // ---------------------------------------------------------------- one entry

  function After(a: Account, delta: int): Account { a.(balance := a.balance + delta) }

  /** How much the credited account moves: the Omnibus asset falls, an owner's liability rises. */
  function CreditDelta(event: Event, amount: int): int { if event == Consume then -amount else amount }

  /** The accounts after an entry. */
  function AfterEvent(accounts: Accounts, event: Event, owner: string, amount: int): Accounts
    requires DebitKey(event, owner) in accounts && CreditKey(event, owner) in accounts
  {
    accounts[DebitKey(event, owner) := After(accounts[DebitKey(event, owner)], -amount)]
            [CreditKey(event, owner) := After(accounts[CreditKey(event, owner)], CreditDelta(event, amount))]
  }

  ghost predicate Charted(accounts: Accounts, opening: OpeningBalances, owner: string) {
    && OMNIBUS_USD in accounts && accounts[OMNIBUS_USD].kind == ASSET
    && owner in opening.owners && OwnerCharted(accounts, opening, owner)
  }

  /** An entry for a charted owner is accepted exactly when both balances suffice and the event is new. */
  lemma EntryOutcome(b: Books, opening: OpeningBalances, id: Id, event: Event, owner: string, amount: int)
    requires Charted(b.accounts, opening, owner) && event != Opening && amount > 0
    requires b.accounts[CreditKey(event, owner)].balance >= 0
    ensures PostEvent(b, id, event, owner, amount).Entered? <==>
      && b.accounts[DebitKey(event, owner)].balance >= amount
      && !HasEvent(b.journals, id, event)
      && (event == Consume ==> b.accounts[OMNIBUS_USD].balance >= amount)
    ensures PostEvent(b, id, event, owner, amount).Entered? ==>
      var next := PostEvent(b, id, event, owner, amount).books;
      && next.accounts == AfterEvent(b.accounts, event, owner, amount)
      && next.journals == b.journals + [Journal(Some(id), event, true)]
  {
    assert AvailableOf(owner) != ReservedOf(owner);
  }

  lemma EntryKeepsChart(accounts: Accounts, opening: OpeningBalances, event: Event, owner: string, amount: int)
    requires Chart(accounts, opening) && Charted(accounts, opening, owner) && event != Opening
    ensures Chart(AfterEvent(accounts, event, owner, amount), opening)
  {
    var next := AfterEvent(accounts, event, owner, amount);
    forall o ensures OwnerCharted(next, opening, o) {
      assert OwnerCharted(accounts, opening, o);
    }
  }

  /** RESERVE and RELEASE move money between liabilities; CONSUME takes it off both sides. */
  lemma EntryLiabilities(accounts: Accounts, opening: OpeningBalances, event: Event, owner: string, amount: int)
    requires Charted(accounts, opening, owner) && event != Opening
    ensures Total(AfterEvent(accounts, event, owner, amount), LiabilityWeight())
      == Total(accounts, LiabilityWeight()) - (if event == Consume then amount else 0)
  {
    var d, c := DebitKey(event, owner), CreditKey(event, owner);
    var debited := accounts[d := After(accounts[d], -amount)];
    TotalUpdate(accounts, LiabilityWeight(), d, After(accounts[d], -amount));
    TotalUpdate(debited, LiabilityWeight(), c, After(accounts[c], CreditDelta(event, amount)));
  }

  lemma EventAppend(journals: seq<Journal>, id: Id, event: Event, i: Id, e: Event)
    ensures HasEvent(journals + [Journal(Some(id), event, true)], i, e)
      <==> HasEvent(journals, i, e) || (i == id && e == event)
  {
    var next := journals + [Journal(Some(id), event, true)];
    if HasEvent(journals, i, e) {
      var j :| 0 <= j < |journals| && journals[j].settlement == Some(i) && journals[j].event == e;
      assert next[j] == journals[j];
    }
    if i == id && e == event {
      assert next[|journals|].settlement == Some(i);
    }
  }

  /** Appending the one event that a change of the rows makes due. */
  lemma JournalAppend(journals: seq<Journal>, rows: Settlements, next: Settlements, id: Id, event: Event)
    requires Journaled(journals, rows) && event != Opening && !HasEvent(journals, id, event)
    requires forall i, e :: Expected(next, i, e) <==> Expected(rows, i, e) || (i == id && e == event)
    ensures Journaled(journals + [Journal(Some(id), event, true)], next)
  {
    var more := journals + [Journal(Some(id), event, true)];
    forall i, e ensures HasEvent(more, i, e) <==> Expected(next, i, e) {
      EventAppend(journals, id, event, i, e);
      assert HasEvent(journals, i, e) <==> Expected(rows, i, e);
    }
  }

  lemma SoundIsNonNegative(b: Books, k: AccountKey)
    requires BooksSound(b) && k in b.accounts
    ensures b.accounts[k].balance >= 0
  {
  }

  lemma EntryKeepsBooks(b: Books, id: Id, event: Event, owner: string, amount: int)
    requires BooksSound(b) && event != Opening && PostEvent(b, id, event, owner, amount).Entered?
    ensures BooksSound(PostEvent(b, id, event, owner, amount).books)
  {
    PostKeepsSound(b, id, event, amount, DebitKey(event, owner), CreditKey(event, owner));
  }

  /** The reserved and Omnibus balances cover any one open settlement. */
  lemma ReservedCovers(db: Db, opening: OpeningBalances, id: Id)
    requires Balanced(db, opening) && id in db.settlements && Open(db.settlements[id].status)
    ensures var s := db.settlements[id];
      && Charted(db.books.accounts, opening, s.owner)
      && s.amount > 0
      && db.books.accounts[ReservedOf(s.owner)].balance >= s.amount
      && db.books.accounts[OMNIBUS_USD].balance >= s.amount
      && db.books.accounts[AvailableOf(s.owner)].balance >= 0
  {
    var o, accounts := db.settlements[id].owner, db.books.accounts;
    assert OwnerCharted(accounts, opening, o) && OwnerBalances(accounts, db.settlements, opening, o);
    RowWithinTotal(db.settlements, OpenWeight(o), id);
    forall k | k in accounts ensures LiabilityWeight()(k, accounts[k]) >= 0 { SoundIsNonNegative(db.books, k); }
    RowWithinTotal(accounts, LiabilityWeight(), ReservedOf(o));
    SoundIsNonNegative(db.books, AvailableOf(o));
  }

  // ---------------------------------------------------------------- reserving

  lemma InsertOwners(accounts: Accounts, settlements: Settlements, opening: OpeningBalances, id: Id, row: Settlement)
    requires OwnersMatch(accounts, settlements, opening) && Charted(accounts, opening, row.owner)
    requires id !in settlements && row.status == RESERVED
    ensures OwnersMatch(AfterEvent(accounts, Reserve, row.owner, row.amount), settlements[id := row], opening)
  {
    var next := AfterEvent(accounts, Reserve, row.owner, row.amount);
    forall o | o in opening.owners ensures OwnerBalances(next, settlements[id := row], opening, o) {
      assert OwnerBalances(accounts, settlements, opening, o);
      TotalInsert(settlements, OpenWeight(o), id, row);
      TotalInsert(settlements, HeldWeight(o), id, row);
    }
  }

  lemma InsertOmnibus(accounts: Accounts, settlements: Settlements, opening: OpeningBalances, id: Id, row: Settlement)
    requires OmnibusMatches(accounts, settlements, opening) && Charted(accounts, opening, row.owner)
    requires id !in settlements && row.status == RESERVED
    ensures OmnibusMatches(AfterEvent(accounts, Reserve, row.owner, row.amount), settlements[id := row], opening)
  {
    EntryLiabilities(accounts, opening, Reserve, row.owner, row.amount);
    TotalInsert(settlements, PaidWeight(), id, row);
  }

  lemma InsertOutcome(db: Db, opening: OpeningBalances, id: Id, r: Request, q: RouteQuote)
    requires Balanced(db, opening) && InsertReserved(db, id, r, q).Committed?
    ensures Charted(db.books.accounts, opening, r.owner)
    ensures var next, row := InsertReserved(db, id, r, q).db, NewSettlement(r, q);
      && id !in db.settlements && !KeyTaken(db, r.owner, r.key)
      && next == Db(PostEvent(db.books, id, Reserve, r.owner, row.amount).books, db.settlements[id := row], db.attempts)
      && PostEvent(db.books, id, Reserve, r.owner, row.amount).Entered?
      && !HasEvent(db.books.journals, id, Reserve)
      && next.books.accounts == AfterEvent(db.books.accounts, Reserve, r.owner, row.amount)
      && next.books.journals == db.books.journals + [Journal(Some(id), Reserve, true)]
  {
    assert OwnerCharted(db.books.accounts, opening, r.owner);
    SoundIsNonNegative(db.books, ReservedOf(r.owner));
    EntryOutcome(db.books, opening, id, Reserve, r.owner, Units(r.command.amount));
  }

  lemma InsertMoney(accounts: Accounts, settlements: Settlements, opening: OpeningBalances, id: Id, row: Settlement)
    requires Money(accounts, settlements, opening) && Charted(accounts, opening, row.owner)
    requires id !in settlements && row.status == RESERVED && row.amount > 0
    ensures Money(AfterEvent(accounts, Reserve, row.owner, row.amount), settlements[id := row], opening)
  {
    EntryKeepsChart(accounts, opening, Reserve, row.owner, row.amount);
    InsertOwners(accounts, settlements, opening, id, row);
    InsertOmnibus(accounts, settlements, opening, id, row);
  }

  lemma InsertConsistent(db: Db, opening: OpeningBalances, id: Id, r: Request, q: RouteQuote)
    requires Consistent(db, opening) && InsertReserved(db, id, r, q).Committed?
    ensures Consistent(InsertReserved(db, id, r, q).db, opening)
  {
    hide Money, Sound, Referential, UniqueEvents, EventsMatch, WellPosted;
    var next := InsertReserved(db, id, r, q).db;
    InsertOutcome(db, opening, id, r, q);
    EntryKeepsBooks(db.books, id, Reserve, r.owner, Units(r.command.amount));
    InsertMoney(db.books.accounts, db.settlements, opening, id, NewSettlement(r, q));
    InsertJournaled(db.books.journals, db.settlements, id, NewSettlement(r, q));
    InsertKeys(db, id, NewSettlement(r, q));
    InsertTracked(db.settlements, db.attempts, id, NewSettlement(r, q));
  }

  lemma InsertJournaled(journals: seq<Journal>, settlements: Settlements, id: Id, row: Settlement)
    requires Journaled(journals, settlements) && id !in settlements && row.status == RESERVED
    requires !HasEvent(journals, id, Reserve)
    ensures Journaled(journals + [Journal(Some(id), Reserve, true)], settlements[id := row])
  {
    JournalAppend(journals, settlements, settlements[id := row], id, Reserve);
  }

  lemma InsertKeys(db: Db, id: Id, row: Settlement)
    requires UniqueKeys(db.settlements) && id !in db.settlements && !KeyTaken(db, row.owner, row.key)
    ensures UniqueKeys(db.settlements[id := row])
  {
    forall a | a in db.settlements ensures !(db.settlements[a].owner == row.owner && db.settlements[a].key == row.key) {
      assert !HasKey(db, a, row.owner, row.key);
    }
  }

  lemma InsertTracked(settlements: Settlements, attempts: map<Id, Attempt>, id: Id, row: Settlement)
    requires Tracked(settlements, attempts) && id !in settlements && row.status == RESERVED
    ensures Tracked(settlements[id := row], attempts)
  {
  }

  // ---------------------------------------------------------------- status changes

  /** Moving between open statuses moves no money. */
  lemma OpenStatusOwners(accounts: Accounts, settlements: Settlements, opening: OpeningBalances, id: Id, now: Settlement)
    requires OwnersMatch(accounts, settlements, opening) && id in settlements
    requires now == settlements[id].(status := now.status) && Open(settlements[id].status) && Open(now.status)
    ensures OwnersMatch(accounts, settlements[id := now], opening)
  {
    forall o | o in opening.owners ensures OwnerBalances(accounts, settlements[id := now], opening, o) {
      assert OwnerBalances(accounts, settlements, opening, o);
      TotalUpdate(settlements, OpenWeight(o), id, now);
      TotalUpdate(settlements, HeldWeight(o), id, now);
    }
  }

  lemma OpenStatusMoney(accounts: Accounts, settlements: Settlements, opening: OpeningBalances, id: Id, now: Settlement)
    requires Money(accounts, settlements, opening) && id in settlements
    requires now == settlements[id].(status := now.status) && Open(settlements[id].status) && Open(now.status)
    ensures Money(accounts, settlements[id := now], opening)
  {
    OpenStatusOwners(accounts, settlements, opening, id, now);
    TotalUpdate(settlements, PaidWeight(), id, now);
  }

  lemma OpenStatusJournaled(db: Db, id: Id, status: Status)
    requires Journaled(db.books.journals, db.settlements) && id in db.settlements
    requires Open(db.settlements[id].status) && Open(status)
    ensures Journaled(db.books.journals, WithStatus(db, id, status))
  {
    var next := WithStatus(db, id, status);
    forall i, e ensures HasEvent(db.books.journals, i, e) <==> Expected(next, i, e) {
      assert Expected(next, i, e) <==> Expected(db.settlements, i, e);
    }
  }

  lemma StatusKeys(settlements: Settlements, id: Id, now: Settlement)
    requires UniqueKeys(settlements) && id in settlements && now == settlements[id].(status := now.status)
    ensures UniqueKeys(settlements[id := now])
  {
  }

  lemma StatusTracked(settlements: Settlements, attempts: map<Id, Attempt>, id: Id, now: Settlement, a: Attempt)
    requires Tracked(settlements, attempts) && id in settlements
    requires now.status != RESERVED && a.token > 0 && (a.state == Completed <==> Terminal(now.status))
    ensures Tracked(settlements[id := now], attempts[id := a])
  {
  }

  lemma OpenStatusConsistent(db: Db, opening: OpeningBalances, id: Id, status: Status, a: Attempt)
    requires Consistent(db, opening) && id in db.settlements && Open(db.settlements[id].status)
    requires InPayout(status) && a.token > 0 && a.state != Completed
    ensures Consistent(Db(db.books, WithStatus(db, id, status), db.attempts[id := a]), opening)
  {
    hide Money, Sound, Referential, UniqueEvents, EventsMatch, WellPosted;
    OpenStatusMoney(db.books.accounts, db.settlements, opening, id, db.settlements[id].(status := status));
    OpenStatusJournaled(db, id, status);
    StatusKeys(db.settlements, id, db.settlements[id].(status := status));
    StatusTracked(db.settlements, db.attempts, id, db.settlements[id].(status := status), a);
  }

  lemma ClaimReservedConsistent(db: Db, opening: OpeningBalances, id: Id, now: int, leaseTime: int)
    requires Consistent(db, opening) && ClaimReserved(db, id, now, leaseTime).Committed?
    ensures Consistent(ClaimReserved(db, id, now, leaseTime).db, opening)
  {
    if ClaimReserved(db, id, now, leaseTime).value.Some? {
      OpenStatusConsistent(db, opening, id, PAYOUT_IN_PROGRESS, Attempt(Submitting, 1, now + leaseTime, None));
    }
  }

  lemma AttemptChangeConsistent(db: Db, opening: OpeningBalances, id: Id, a: Attempt)
    requires Consistent(db, opening) && id in db.settlements && InPayout(db.settlements[id].status)
    requires a.token > 0 && a.state != Completed
    ensures Consistent(db.(attempts := db.attempts[id := a]), opening)
  {
    hide Balanced, Journaled, UniqueKeys, Tracked;
    OpenStatusConsistent(db, opening, id, db.settlements[id].status, a);
    assert WithStatus(db, id, db.settlements[id].status) == db.settlements;
  }

  lemma PositiveToken(db: Db, id: Id)
    requires Tracked(db.settlements, db.attempts) && id in db.attempts
    ensures db.attempts[id].token > 0
  {
  }

  lemma ClaimForReconciliationConsistent(db: Db, opening: OpeningBalances, id: Id, respect: bool, now: int, leaseTime: int)
    requires Consistent(db, opening) && ClaimForReconciliation(db, id, respect, now, leaseTime).Committed?
    ensures Consistent(ClaimForReconciliation(db, id, respect, now, leaseTime).db, opening)
  {
    var tx := ClaimForReconciliation(db, id, respect, now, leaseTime);
    if tx.value.Some? {
      if id in db.attempts {
        PositiveToken(db, id);
      }
      AttemptChangeConsistent(db, opening, id, tx.db.attempts[id]);
    }
  }

  lemma {:induction false} ClaimRowsConsistent(db: Db, opening: OpeningBalances, rows: seq<Id>, now: int, leaseTime: int)
    requires Consistent(db, opening)
    requires forall i | 0 <= i < |rows| :: rows[i] in db.settlements && InPayout(db.settlements[rows[i]].status)
    ensures Consistent(ClaimRows(db, rows, now, leaseTime), opening)
    ensures ClaimRows(db, rows, now, leaseTime).settlements == db.settlements
  {
    hide Balanced, Journaled, UniqueKeys;
    if rows != [] {
      var init, id := rows[..|rows| - 1], rows[|rows| - 1];
      ClaimRowsConsistent(db, opening, init, now, leaseTime);
      var before := ClaimRows(db, init, now, leaseTime);
      if id in before.attempts {
        PositiveToken(before, id);
        AttemptChangeConsistent(before, opening, id, Claim(before.attempts[id], now, leaseTime));
      }
    }
  }

  // ---------------------------------------------------------------- finalization

  function EndEvent(status: Status): Event { if status == SUCCESS then Consume else Release }

  lemma NotYetEnded(journals: seq<Journal>, settlements: Settlements, id: Id, event: Event)
    requires EventsMatch(journals, settlements) && id in settlements && Open(settlements[id].status)
    requires event == Consume || event == Release
    ensures !HasEvent(journals, id, event)
  {
    assert !Expected(settlements, id, event);
  }

  /** An open settlement can always be ended either way: the reserve is there and the event is new. */
  lemma EndAccepted(db: Db, opening: OpeningBalances, id: Id, status: Status)
    requires Consistent(db, opening) && id in db.settlements && Open(db.settlements[id].status) && Terminal(status)
    ensures var s, event := db.settlements[id], EndEvent(status);
      && Charted(db.books.accounts, opening, s.owner)
      && PostEvent(db.books, id, event, s.owner, s.amount).Entered?
      && !HasEvent(db.books.journals, id, event)
      && PostEvent(db.books, id, event, s.owner, s.amount).books.accounts
        == AfterEvent(db.books.accounts, event, s.owner, s.amount)
      && PostEvent(db.books, id, event, s.owner, s.amount).books.journals
        == db.books.journals + [Journal(Some(id), event, true)]
  {
    hide Sound, Referential, OwnersMatch, OmnibusMatches;
    var s := db.settlements[id];
    ReservedCovers(db, opening, id);
    NotYetEnded(db.books.journals, db.settlements, id, EndEvent(status));
    EntryOutcome(db.books, opening, id, EndEvent(status), s.owner, s.amount);
  }

  lemma EndEntered(db: Db, opening: OpeningBalances, id: Id, status: Status)
    requires Consistent(db, opening) && id in db.settlements && Open(db.settlements[id].status) && Terminal(status)
    ensures var s := db.settlements[id]; PostEvent(db.books, id, EndEvent(status), s.owner, s.amount).Entered?
  {
    EndAccepted(db, opening, id, status);
  }

  /** The ledger never refuses a finalization: neither side runs short, and the event is never a duplicate. */
  lemma FinalizeNeverRefused(db: Db, opening: OpeningBalances, id: Id, token: int, result: Option<Submission>, now: int)
    requires Consistent(db, opening)
    ensures var tx := FinalizeAttempt(db, id, token, result, now);
      tx.Committed? || tx.error == SettlementNotFound || tx.error == StaleAttemptToken
  {
    hide Consistent, PostEvent;
    if id in db.settlements && Open(db.settlements[id].status) && Terminal(StatusFor(result)) {
      EndEntered(db, opening, id, StatusFor(result));
    }
  }

  lemma EndOwners(accounts: Accounts, settlements: Settlements, opening: OpeningBalances, id: Id, now: Settlement)
    requires OwnersMatch(accounts, settlements, opening) && id in settlements && Charted(accounts, opening, now.owner)
    requires now == settlements[id].(status := now.status) && Open(settlements[id].status) && Terminal(now.status)
    ensures OwnersMatch(AfterEvent(accounts, EndEvent(now.status), now.owner, now.amount), settlements[id := now], opening)
  {
    var next := AfterEvent(accounts, EndEvent(now.status), now.owner, now.amount);
    forall o | o in opening.owners ensures OwnerBalances(next, settlements[id := now], opening, o) {
      assert OwnerBalances(accounts, settlements, opening, o);
      TotalUpdate(settlements, OpenWeight(o), id, now);
      TotalUpdate(settlements, HeldWeight(o), id, now);
    }
  }

  lemma EndOmnibus(accounts: Accounts, settlements: Settlements, opening: OpeningBalances, id: Id, now: Settlement)
    requires OmnibusMatches(accounts, settlements, opening) && id in settlements && Charted(accounts, opening, now.owner)
    requires now == settlements[id].(status := now.status) && Open(settlements[id].status) && Terminal(now.status)
    ensures OmnibusMatches(AfterEvent(accounts, EndEvent(now.status), now.owner, now.amount), settlements[id := now], opening)
  {
    EntryLiabilities(accounts, opening, EndEvent(now.status), now.owner, now.amount);
    TotalUpdate(settlements, PaidWeight(), id, now);
  }

  lemma EndJournaled(journals: seq<Journal>, settlements: Settlements, id: Id, now: Settlement)
    requires Journaled(journals, settlements) && id in settlements
    requires now == settlements[id].(status := now.status) && Open(settlements[id].status) && Terminal(now.status)
    ensures Journaled(journals + [Journal(Some(id), EndEvent(now.status), true)], settlements[id := now])
  {
    NotYetEnded(journals, settlements, id, EndEvent(now.status));
    JournalAppend(journals, settlements, settlements[id := now], id, EndEvent(now.status));
  }

  lemma EndMoney(accounts: Accounts, settlements: Settlements, opening: OpeningBalances, id: Id, now: Settlement)
    requires Money(accounts, settlements, opening) && id in settlements && Charted(accounts, opening, now.owner)
    requires now == settlements[id].(status := now.status) && Open(settlements[id].status) && Terminal(now.status)
    ensures Money(AfterEvent(accounts, EndEvent(now.status), now.owner, now.amount), settlements[id := now], opening)
  {
    EntryKeepsChart(accounts, opening, EndEvent(now.status), now.owner, now.amount);
    EndOwners(accounts, settlements, opening, id, now);
    EndOmnibus(accounts, settlements, opening, id, now);
  }

  lemma EndConsistent(db: Db, opening: OpeningBalances, id: Id, status: Status, a: Attempt)
    requires Consistent(db, opening) && id in db.settlements && Open(db.settlements[id].status) && Terminal(status)
    requires a.token > 0 && a.state == Completed
    ensures var s := db.settlements[id];
      var entry := PostEvent(db.books, id, EndEvent(status), s.owner, s.amount);
      entry.Entered? && Consistent(Db(entry.books, WithStatus(db, id, status), db.attempts[id := a]), opening)
  {
    hide Money, Sound, Referential, UniqueEvents, EventsMatch, WellPosted;
    var now := db.settlements[id].(status := status);
    EndAccepted(db, opening, id, status);
    EntryKeepsBooks(db.books, id, EndEvent(status), now.owner, now.amount);
    EndMoney(db.books.accounts, db.settlements, opening, id, now);
    EndJournaled(db.books.journals, db.settlements, id, now);
    StatusKeys(db.settlements, id, now);
    StatusTracked(db.settlements, db.attempts, id, now, a);
  }

  lemma FinalizeConsistent(db: Db, opening: OpeningBalances, id: Id, token: int, result: Option<Submission>, now: int)
    requires Consistent(db, opening) && FinalizeAttempt(db, id, token, result, now).Committed?
    ensures Consistent(FinalizeAttempt(db, id, token, result, now).db, opening)
  {
    hide Balanced, Journaled, UniqueKeys;
    if !Terminal(db.settlements[id].status) {
      PositiveToken(db, id);
      var a := FinalizeAttempt(db, id, token, result, now).db.attempts[id];
      if StatusFor(result) == PENDING_RECONCILIATION {
        OpenStatusConsistent(db, opening, id, StatusFor(result), a);
      } else {
        EndConsistent(db, opening, id, StatusFor(result), a);
      }
    }
  }
}
