/** The postings behind every settlement, account by account, in every reachable state. */
module Entries {
  import opened Options
  import opened Routing
  import opened Ledger
  import opened Provider
  import opened Service
  import opened Accounting
  import opened Protocol
  import opened Fencing
  import opened Seed

  /** Reservation: debit available, credit reserved. Success: debit reserved, credit Omnibus. Failure: debit reserved,
      credit available. All in dollars, for the amount of the settlement. */
  ghost predicate EntryOf(postings: seq<Posting>, j: nat, event: Event, owner: string, amount: int) {
    var available, reserved, omnibus :=
      AccountKey(owner, USD, Available), AccountKey(owner, USD, Reserved), AccountKey("system", USD, Omnibus);
    match event
    case Opening => false
    case Reserve => PostingsOf(postings, j) == [Posting(j, available, USD, Debit, amount), Posting(j, reserved, USD, Credit, amount)]
    case Consume => PostingsOf(postings, j) == [Posting(j, reserved, USD, Debit, amount), Posting(j, omnibus, USD, Credit, amount)]
    case Release => PostingsOf(postings, j) == [Posting(j, reserved, USD, Debit, amount), Posting(j, available, USD, Credit, amount)]
  }

  /** A journal of a settlement is posted, and has exactly the postings of its event. */
  ghost predicate JournalTells(b: Books, settlements: Settlements, j: nat)
    requires j < |b.journals|
  {
    b.journals[j].settlement.Some? ==>
      var id := b.journals[j].settlement.value;
      && b.journals[j].posted && id in settlements
      && EntryOf(b.postings, j, b.journals[j].event, settlements[id].owner, settlements[id].amount)
  }

  ghost predicate JournalsTell(b: Books, settlements: Settlements) {
    forall j | 0 <= j < |b.journals| :: JournalTells(b, settlements, j)
  }

  /** No settlement is lost, and none changes its owner or amount. */
  ghost predicate SameMoney(before: Settlements, after: Settlements) {
    forall id | id in before :: id in after && after[id].owner == before[id].owner && after[id].amount == before[id].amount
  }

  lemma SameBooksTell(b: Books, before: Settlements, after: Settlements)
    requires JournalsTell(b, before) && SameMoney(before, after)
    ensures JournalsTell(b, after)
  {
    forall j | 0 <= j < |b.journals| ensures JournalTells(b, after, j) {
      assert JournalTells(b, before, j);
    }
  }

  lemma NothingPostedYet(postings: seq<Posting>, j: nat)
    requires forall p | p in postings :: p.journal < j
    ensures PostingsOf(postings, j) == []
  {
    assert postings == [] + postings;
    LaterPostings([], postings, j);
  }

  lemma PairPosted(postings: seq<Posting>, j: nat, d: Posting, c: Posting)
    requires PostingsOf(postings, j) == [] && d.journal == j && c.journal == j
    ensures PostingsOf(postings + [d, c], j) == [d, c]
  {
    var more := postings + [d, c];
    assert more[..|more| - 1] == postings + [d];
    assert (postings + [d])[..|postings|] == postings;
    assert PostingsOf(postings + [d], j) == [d];
  }

  lemma NewEntryTells(b: Books, id: Id, event: Event, owner: string, amount: int)
    requires Referential(b) && event != Opening && PostEvent(b, id, event, owner, amount).Entered?
    ensures var next := PostEvent(b, id, event, owner, amount).books;
      EntryOf(next.postings, |b.journals|, event, owner, amount)
      && next.journals == b.journals + [Journal(Some(id), event, true)]
  {
    var j := |b.journals|;
    var d := Posting(j, DebitKey(event, owner), USD, Debit, amount);
    var c := Posting(j, CreditKey(event, owner), USD, Credit, amount);
    NothingPostedYet(b.postings, j);
    PairPosted(b.postings, j, d, c);
    hide PostingsOf;
  }

  lemma OldEntryTells(b: Books, next: Books, j: nat, event: Event, owner: string, amount: int)
    requires EntryOf(b.postings, j, event, owner, amount) && j < |b.journals|
    requires |next.postings| == |b.postings| + 2 && next.postings[..|b.postings|] == b.postings
    requires next.postings[|b.postings|].journal == |b.journals| && next.postings[|b.postings| + 1].journal == |b.journals|
    ensures EntryOf(next.postings, j, event, owner, amount)
  {
    var more := next.postings[|b.postings|..];
    assert next.postings == b.postings + more;
    LaterPostings(b.postings, more, j);
    hide PostingsOf;
  }

  lemma PostTells(b: Books, before: Settlements, after: Settlements, id: Id, event: Event, owner: string, amount: int)
    requires JournalsTell(b, before) && Referential(b) && SameMoney(before, after)
    requires event != Opening && PostEvent(b, id, event, owner, amount).Entered?
    requires id in after && after[id].owner == owner && after[id].amount == amount
    ensures JournalsTell(PostEvent(b, id, event, owner, amount).books, after)
  {
    var next := PostEvent(b, id, event, owner, amount).books;
    NewEntryTells(b, id, event, owner, amount);
    assert |next.postings| == |b.postings| + 2 && next.postings[..|b.postings|] == b.postings;
    assert next.postings[|b.postings|].journal == |b.journals| && next.postings[|b.postings| + 1].journal == |b.journals|;
    hide EntryOf, PostEvent, Referential;
    forall j | 0 <= j < |next.journals| ensures JournalTells(next, after, j) {
      if j < |b.journals| {
        assert JournalTells(b, before, j);
        if b.journals[j].settlement.Some? {
          var i := b.journals[j].settlement.value;
          OldEntryTells(b, next, j, b.journals[j].event, before[i].owner, before[i].amount);
        }
      }
    }
  }

  lemma KeptMoney(before: Db, after: Db)
    requires Kept(before, after)
    ensures SameMoney(before.settlements, after.settlements)
  {
  }

  lemma ChangedTells(c: Config, db: Db, opening: OpeningBalances, clock: int, change: Change)
    requires Consistent(db, opening) && JournalsTell(db.books, db.settlements)
    ensures JournalsTell(Changed(c, db, clock, change).books, Changed(c, db, clock, change).settlements)
  {
    hide JournalsTell, Kept, SameMoney, Money, Sound, Referential, Journaled, Tracked, UniqueKeys, PostEvent;
    var after := Changed(c, db, clock, change);
    ChangedKept(c, db, clock, change);
    KeptMoney(db, after);
    match change
    case Insertion(id, r, q) =>
      var amount := NewSettlement(r, q).amount;
      if InsertReserved(db, id, r, q).Committed? {
        PostTells(db.books, db.settlements, after.settlements, id, Reserve, r.owner, amount);
      } else {
        SameBooksTell(db.books, db.settlements, after.settlements);
      }
    case Finalization(id, token, result) => FinalizedTells(db, opening, after, id, token, result, clock);
    case BatchClaim(rows) =>
      ClaimRowsFrame(db, rows, clock, c.leaseTime);
      SameBooksTell(db.books, db.settlements, after.settlements);
    case _ => SameBooksTell(db.books, db.settlements, after.settlements);
  }

  lemma FinalizedTells(db: Db, opening: OpeningBalances, after: Db, id: Id, token: int, result: Option<Submission>, now: int)
    requires Consistent(db, opening) && JournalsTell(db.books, db.settlements) && SameMoney(db.settlements, after.settlements)
    requires after == DbOf(db, FinalizeAttempt(db, id, token, result, now))
    ensures JournalsTell(after.books, after.settlements)
  {
    hide JournalsTell, Money, Sound, Referential, Journaled, Tracked, UniqueKeys, PostEvent;
    if after.books == db.books {
      SameBooksTell(db.books, db.settlements, after.settlements);
    } else {
      var s, event := db.settlements[id], if StatusFor(result) == SUCCESS then Consume else Release;
      assert SameMoney(db.settlements, after.settlements);
      PostTells(db.books, db.settlements, after.settlements, id, event, s.owner, s.amount);
    }
  }

  /** In every reachable state each journal of a settlement is posted and has exactly the two postings of its event, on the
      accounts of the settlement's owner, in dollars, for the settlement's amount. */
  lemma {:induction false} EveryJournalTells(c: Config, w: World, opening: OpeningBalances, actions: seq<Action>)
    requires Initial(w, opening)
    ensures JournalsTell(Run(c, w, actions).db.books, Run(c, w, actions).db.settlements)
  {
    hide JournalsTell, Consistent, Changed, ChangeOf, CallsAfter, Grants;
    if actions == [] {
      InitialJournalsTell(w, opening);
    } else {
      var before, a := Run(c, w, actions[..|actions| - 1]), actions[|actions| - 1];
      EveryJournalTells(c, w, opening, actions[..|actions| - 1]);
      AlwaysConsistent(c, w, opening, actions[..|actions| - 1]);
      ChangedTells(c, before.db, opening, before.clock, ChangeOf(before, a));
    }
  }

  /** Without settlements there is no journal of one. */
  lemma InitialJournalsTell(w: World, opening: OpeningBalances)
    requires Initial(w, opening)
    ensures JournalsTell(w.db.books, w.db.settlements)
  {
    hide EntryOf, Initial;
    forall j | 0 <= j < |w.db.books.journals| ensures w.db.books.journals[j].settlement.None? {
      NoSettlementJournal(w, opening, j);
    }
  }

  lemma NoSettlementJournal(w: World, opening: OpeningBalances, j: nat)
    requires Initial(w, opening) && j < |w.db.books.journals|
    ensures w.db.books.journals[j].settlement.None?
  {
    hide Balanced, Tracked, UniqueKeys, UniqueEvents, WellPosted;
    var journal := w.db.books.journals[j];
    assert journal.settlement.Some? ==> HasEvent(w.db.books.journals, journal.settlement.value, journal.event);
  }
}
