/** The double-entry ledger: accounts with materialized balances, journals and postings (app/ledger.py).
    Money is counted in units of the eighth decimal. An account row is known by its unique
    (owner, currency, purpose); a journal row by its place in the order of insertion. */
module Ledger {
  import opened Options
  import opened Routing

  type Id = nat

  datatype AccountClass = ASSET | LIABILITY

  datatype Purpose = Available | Reserved | Omnibus

  datatype Side = Debit | Credit

  datatype Event = Opening | Reserve | Consume | Release

  datatype AccountKey = AccountKey(owner: string, currency: Currency, purpose: Purpose)

  datatype Account = Account(kind: AccountClass, balance: int)

  datatype Journal = Journal(settlement: Option<Id>, event: Event, posted: bool)

  datatype Posting = Posting(journal: nat, account: AccountKey, currency: Currency, side: Side, amount: int)

  datatype Books = Books(accounts: map<AccountKey, Account>, journals: seq<Journal>, postings: seq<Posting>)

  datatype LedgerError = InsufficientFunds | MissingAccount | DuplicateEvent | AmountNotPositive

  datatype Entry = Entered(books: Books) | Refused(error: LedgerError)

  function AvailableOf(owner: string): AccountKey { AccountKey(owner, USD, Available) }

  function ReservedOf(owner: string): AccountKey { AccountKey(owner, USD, Reserved) }

  const OMNIBUS_USD := AccountKey("system", USD, Omnibus)

  predicate Increases(kind: AccountClass, side: Side) {
    (kind == ASSET && side == Debit) || (kind == LIABILITY && side == Credit)
  }

  function Signed(kind: AccountClass, side: Side, amount: int): int {
    if Increases(kind, side) then amount else -amount
  }

  function Moved(a: Account, side: Side, amount: int): Account {
    a.(balance := a.balance + Signed(a.kind, side, amount))
  }

  /** The unique index on (settlement, event). */
  predicate HasEvent(journals: seq<Journal>, id: Id, event: Event) {
    exists j | 0 <= j < |journals| :: journals[j].settlement == Some(id) && journals[j].event == event
  }

  /** One balanced entry: what a successful posting leaves, or why it is refused. */
  function Post(b: Books, id: Id, event: Event, amount: int, debit: AccountKey, credit: AccountKey): Entry {
    if debit !in b.accounts || credit !in b.accounts then Refused(MissingAccount)
    else if b.accounts[debit].balance < amount then Refused(InsufficientFunds)
    else if HasEvent(b.journals, id, event) then Refused(DuplicateEvent)
    else
      var debited := b.accounts[debit := Moved(b.accounts[debit], Debit, amount)];
      var credited := debited[credit := Moved(debited[credit], Credit, amount)];
      if debited[debit].balance < 0 || credited[credit].balance < 0 then Refused(InsufficientFunds)
      else if amount <= 0 then Refused(AmountNotPositive)
      else
        var j := |b.journals|;
        Entered(Books(
          credited,
          b.journals + [Journal(Some(id), event, true)],
          b.postings + [Posting(j, debit, USD, Debit, amount), Posting(j, credit, USD, Credit, amount)]))
  }

  function DebitKey(event: Event, owner: string): AccountKey {
    if event == Reserve then AvailableOf(owner) else ReservedOf(owner)
  }

  function CreditKey(event: Event, owner: string): AccountKey {
    if event == Reserve then ReservedOf(owner) else if event == Consume then OMNIBUS_USD else AvailableOf(owner)
  }

  /** RESERVE, CONSUME and RELEASE, with the accounts each of them moves money between. */
  function PostEvent(b: Books, id: Id, event: Event, owner: string, amount: int): Entry
    requires event != Opening
  {
    Post(b, id, event, amount, DebitKey(event, owner), CreditKey(event, owner))
  }

  // ---------------------------------------------------------------- what the audit demands

  function Replay(postings: seq<Posting>, k: AccountKey, kind: AccountClass): int {
    if postings == [] then 0
    else
      var p := postings[|postings| - 1];
      Replay(postings[..|postings| - 1], k, kind) + (if p.account == k then Signed(kind, p.side, p.amount) else 0)
  }

  function GroupTotal(postings: seq<Posting>, j: nat, c: Currency, side: Side): int {
    if postings == [] then 0
    else
      var p := postings[|postings| - 1];
      GroupTotal(postings[..|postings| - 1], j, c, side)
        + (if p.journal == j && p.currency == c && p.side == side then p.amount else 0)
  }

  ghost predicate NonNegative(b: Books) { forall k | k in b.accounts :: b.accounts[k].balance >= 0 }

  ghost predicate GroupsBalance(postings: seq<Posting>) {
    forall j, c :: GroupTotal(postings, j, c, Debit) == GroupTotal(postings, j, c, Credit)
  }

  ghost predicate Replayed(b: Books) {
    forall k | k in b.accounts :: b.accounts[k].balance == Replay(b.postings, k, b.accounts[k].kind)
  }

  /** The foreign keys of the posting table. */
  ghost predicate Referential(b: Books) {
    forall p | p in b.postings :: p.account in b.accounts && p.journal < |b.journals|
  }

  ghost predicate Sound(b: Books) {
    NonNegative(b) && GroupsBalance(b.postings) && Replayed(b)
  }

  datatype Verdict = Passed | NegativeBalance | UnbalancedJournal | BalanceMismatch

  // ---------------------------------------------------------------- one entry keeps the books sound

  lemma ReplayAppend(postings: seq<Posting>, p: Posting, k: AccountKey, kind: AccountClass)
    ensures Replay(postings + [p], k, kind)
      == Replay(postings, k, kind) + (if p.account == k then Signed(kind, p.side, p.amount) else 0)
  {
    assert (postings + [p])[..|postings|] == postings;
  }

  lemma GroupAppend(postings: seq<Posting>, p: Posting, j: nat, c: Currency, side: Side)
    ensures GroupTotal(postings + [p], j, c, side)
      == GroupTotal(postings, j, c, side) + (if p.journal == j && p.currency == c && p.side == side then p.amount else 0)
  {
    assert (postings + [p])[..|postings|] == postings;
  }

  /** Two opposite postings of one journal keep every group balanced, whatever was there. */
  lemma PairKeepsBalance(postings: seq<Posting>, d: Posting, c: Posting)
    requires GroupsBalance(postings)
    requires d.journal == c.journal && d.currency == c.currency && d.amount == c.amount
    requires d.side == Debit && c.side == Credit
    ensures GroupsBalance(postings + [d, c])
  {
    assert postings + [d, c] == (postings + [d]) + [c];
    forall j: nat, u: Currency
      ensures GroupTotal(postings + [d, c], j, u, Debit) == GroupTotal(postings + [d, c], j, u, Credit)
    {
      GroupAppend(postings, d, j, u, Debit);
      GroupAppend(postings + [d], c, j, u, Debit);
      GroupAppend(postings, d, j, u, Credit);
      GroupAppend(postings + [d], c, j, u, Credit);
    }
  }

  lemma EntryReplayed(b: Books, d: Posting, c: Posting, debited: map<AccountKey, Account>, credited: map<AccountKey, Account>)
    requires Replayed(b) && d.account in b.accounts && c.account in b.accounts
    requires debited == b.accounts[d.account := Moved(b.accounts[d.account], d.side, d.amount)]
    requires credited == debited[c.account := Moved(debited[c.account], c.side, c.amount)]
    ensures Replayed(Books(credited, b.journals, b.postings + [d, c]))
  {
    assert b.postings + [d, c] == (b.postings + [d]) + [c];
    forall k | k in credited ensures credited[k].balance == Replay(b.postings + [d, c], k, credited[k].kind) {
      ReplayAppend(b.postings, d, k, credited[k].kind);
      ReplayAppend(b.postings + [d], c, k, credited[k].kind);
    }
  }

  /** Every entry keeps the books sound. */
  lemma PostKeepsSound(b: Books, id: Id, event: Event, amount: int, debit: AccountKey, credit: AccountKey)
    requires Sound(b) && Referential(b)
    requires Post(b, id, event, amount, debit, credit).Entered?
    ensures var next := Post(b, id, event, amount, debit, credit).books; Sound(next) && Referential(next)
  {
    var j := |b.journals|;
    var d, c := Posting(j, debit, USD, Debit, amount), Posting(j, credit, USD, Credit, amount);
    var debited := b.accounts[debit := Moved(b.accounts[debit], Debit, amount)];
    var credited := debited[credit := Moved(debited[credit], Credit, amount)];
    PairKeepsBalance(b.postings, d, c);
    EntryReplayed(b, d, c, debited, credited);
  }

  // ---------------------------------------------------------------- the program

  class LedgerTables {
    var accounts: map<AccountKey, Account>
    var journals: seq<Journal>
    var postings: seq<Posting>

    constructor (b: Books)
      ensures Contents() == b
    {
      accounts, journals, postings := b.accounts, b.journals, b.postings;
    }

    function Contents(): Books
      reads this
    {
      Books(accounts, journals, postings)
    }

    /** Moves one balance in place, and reports whether it stayed non-negative. */
    method ApplyPosting(k: AccountKey, side: Side, amount: int) returns (ok: bool)
      requires k in accounts
      modifies this`accounts
      ensures accounts == old(accounts)[k := Moved(old(accounts)[k], side, amount)]
      ensures ok <==> accounts[k].balance >= 0
    {
      var account := accounts[k];
      var increases := (account.kind == ASSET && side == Debit) || (account.kind == LIABILITY && side == Credit);
      var balance := account.balance;
      if increases {
        balance := balance + amount;
      } else {
        balance := balance - amount;
      }
      accounts := accounts[k := account.(balance := balance)];
      ok := balance >= 0;
    }

    /** Writes the journal open, its two postings and the two balances, then closes the journal.
        A refusal rolls everything back, as the enclosing transaction does. */
    method PostEntry(id: Id, event: Event, amount: int, debit: AccountKey, credit: AccountKey)
      returns (refused: Option<LedgerError>)
      modifies this
      ensures refused.None? ==> Post(old(Contents()), id, event, amount, debit, credit) == Entered(Contents())
      ensures refused.Some? ==> Post(old(Contents()), id, event, amount, debit, credit) == Refused(refused.value)
      ensures refused.Some? ==> Contents() == old(Contents())
    {
      if debit !in accounts || credit !in accounts {
        return Some(MissingAccount);
      }
      if accounts[debit].balance < amount {
        return Some(InsufficientFunds);
      }
      if HasEvent(journals, id, event) {
        return Some(DuplicateEvent);
      }
      var before := Contents();
      var journal := |journals|;
      journals := journals + [Journal(Some(id), event, false)];
      postings := postings + [Posting(journal, debit, USD, Debit, amount), Posting(journal, credit, USD, Credit, amount)];
      var ok := ApplyPosting(debit, Debit, amount);
      if ok {
        ok := ApplyPosting(credit, Credit, amount);
      }
      if !ok || amount <= 0 {
        accounts, journals, postings := before.accounts, before.journals, before.postings;
        return Some(if ok then AmountNotPositive else InsufficientFunds);
      }
      journals := journals[journal := Journal(Some(id), event, true)];
      refused := None;
      assert journals == before.journals + [Journal(Some(id), event, true)];
    }

    method ReserveFunds(id: Id, owner: string, amount: int) returns (refused: Option<LedgerError>)
      modifies this
      ensures refused.None? ==> PostEvent(old(Contents()), id, Reserve, owner, amount) == Entered(Contents())
      ensures refused.Some? ==> PostEvent(old(Contents()), id, Reserve, owner, amount) == Refused(refused.value)
      ensures refused.Some? ==> Contents() == old(Contents())
    {
      refused := PostEntry(id, Reserve, amount, AvailableOf(owner), ReservedOf(owner));
    }

    method ConsumeFunds(id: Id, owner: string, amount: int) returns (refused: Option<LedgerError>)
      modifies this
      ensures refused.None? ==> PostEvent(old(Contents()), id, Consume, owner, amount) == Entered(Contents())
      ensures refused.Some? ==> PostEvent(old(Contents()), id, Consume, owner, amount) == Refused(refused.value)
      ensures refused.Some? ==> Contents() == old(Contents())
    {
      refused := PostEntry(id, Consume, amount, ReservedOf(owner), OMNIBUS_USD);
    }

    method ReleaseFunds(id: Id, owner: string, amount: int) returns (refused: Option<LedgerError>)
      modifies this
      ensures refused.None? ==> PostEvent(old(Contents()), id, Release, owner, amount) == Entered(Contents())
      ensures refused.Some? ==> PostEvent(old(Contents()), id, Release, owner, amount) == Refused(refused.value)
      ensures refused.Some? ==> Contents() == old(Contents())
    {
      refused := PostEntry(id, Release, amount, ReservedOf(owner), AvailableOf(owner));
    }
  }

  // ---------------------------------------------------------------- the audit loop

  type Totals = map<(nat, Currency), (int, int)>

  function TotalsAt(totals: Totals, j: nat, c: Currency): (int, int) {
    if (j, c) in totals then totals[(j, c)] else (0, 0)
  }

  ghost predicate Totalled(postings: seq<Posting>, totals: Totals) {
    forall j, c ::
      TotalsAt(totals, j, c) == (GroupTotal(postings, j, c, Debit), GroupTotal(postings, j, c, Credit))
  }

  /** What the balances must be after these postings. */
  ghost predicate Expects(accounts: map<AccountKey, Account>, postings: seq<Posting>, expected: map<AccountKey, int>) {
    expected.Keys == accounts.Keys && forall k | k in accounts :: expected[k] == Replay(postings, k, accounts[k].kind)
  }

  /** The audit passes exactly on sound books, and names the first check that fails. */
  method AssertLedgerInvariants(b: Books) returns (r: Verdict)
    requires Referential(b)
    ensures r == Passed <==> Sound(b)
    ensures r == NegativeBalance <==> !NonNegative(b)
    ensures r == UnbalancedJournal <==> NonNegative(b) && !GroupsBalance(b.postings)
  {
    hide Expects, Totalled, GroupsBalance, Replayed;
    if exists k | k in b.accounts :: b.accounts[k].balance < 0 {
      return NegativeBalance;
    }
    var journalTotals: Totals := map[];
    var expected: map<AccountKey, int> := map k | k in b.accounts :: 0;
    AuditStarts(b.accounts, expected);
    for i := 0 to |b.postings|
      invariant expected.Keys == b.accounts.Keys
      invariant Expects(b.accounts, b.postings[..i], expected) && Totalled(b.postings[..i], journalTotals)
    {
      var posting := b.postings[i];
      assert posting in b.postings;
      assert b.postings[..i + 1] == b.postings[..i] + [posting];
      AuditStep(b.postings[..i], posting, journalTotals);
      ExpectStep(b.accounts, b.postings[..i], posting, expected);
      var (debits, credits) := TotalsAt(journalTotals, posting.journal, posting.currency);
      if posting.side == Debit {
        debits := debits + posting.amount;
      } else {
        credits := credits + posting.amount;
      }
      journalTotals := journalTotals[(posting.journal, posting.currency) := (debits, credits)];
      var account := b.accounts[posting.account];
      expected := expected[posting.account := expected[posting.account] + Signed(account.kind, posting.side, posting.amount)];
    }
    assert b.postings[..|b.postings|] == b.postings;
    TotalsDecide(b.postings, journalTotals);
    ExpectedDecides(b, expected);
    if exists g | g in journalTotals :: journalTotals[g].0 != journalTotals[g].1 {
      return UnbalancedJournal;
    }
    if exists k | k in b.accounts :: b.accounts[k].balance != expected[k] {
      return BalanceMismatch;
    }
    r := Passed;
  }

  lemma AuditStarts(accounts: map<AccountKey, Account>, expected: map<AccountKey, int>)
    requires expected.Keys == accounts.Keys && forall k | k in accounts :: expected[k] == 0
    ensures Expects(accounts, [], expected) && Totalled([], map[])
  {
  }

  lemma ExpectStep(accounts: map<AccountKey, Account>, before: seq<Posting>, p: Posting, expected: map<AccountKey, int>)
    requires Expects(accounts, before, expected) && p.account in accounts
    ensures Expects(accounts, before + [p],
      expected[p.account := expected[p.account] + Signed(accounts[p.account].kind, p.side, p.amount)])
  {
    hide Replay, Signed;
    forall k | k in accounts
      ensures Replay(before + [p], k, accounts[k].kind) == expected[k]
        + (if p.account == k then Signed(accounts[k].kind, p.side, p.amount) else 0)
    {
      ReplayAppend(before, p, k, accounts[k].kind);
    }
  }

  /** The groups balance exactly when every total does. */
  lemma TotalsDecide(postings: seq<Posting>, totals: Totals)
    requires Totalled(postings, totals)
    ensures GroupsBalance(postings) <==> forall g | g in totals :: totals[g].0 == totals[g].1
  {
    hide GroupTotal;
    forall g | g in totals && totals[g].0 != totals[g].1 ensures !GroupsBalance(postings) {
      assert TotalsAt(totals, g.0, g.1) == totals[g];
    }
    if forall g | g in totals :: totals[g].0 == totals[g].1 {
      forall j: nat, c: Currency ensures GroupTotal(postings, j, c, Debit) == GroupTotal(postings, j, c, Credit) {
        assert TotalsAt(totals, j, c).0 == TotalsAt(totals, j, c).1;
      }
    }
  }

  lemma ExpectedDecides(b: Books, expected: map<AccountKey, int>)
    requires Expects(b.accounts, b.postings, expected)
    ensures expected.Keys == b.accounts.Keys
    ensures Replayed(b) <==> forall k | k in b.accounts :: b.accounts[k].balance == expected[k]
  {
    hide Replay;
  }

  lemma AuditStep(before: seq<Posting>, p: Posting, totals: Totals)
    requires Totalled(before, totals)
    ensures var (debits, credits) := TotalsAt(totals, p.journal, p.currency);
      Totalled(before + [p], totals[(p.journal, p.currency) :=
        if p.side == Debit then (debits + p.amount, credits) else (debits, credits + p.amount)])
  {
    var (debits, credits) := TotalsAt(totals, p.journal, p.currency);
    var next := totals[(p.journal, p.currency) :=
      if p.side == Debit then (debits + p.amount, credits) else (debits, credits + p.amount)];
    forall j: nat, c: Currency
      ensures TotalsAt(next, j, c) == (GroupTotal(before + [p], j, c, Debit), GroupTotal(before + [p], j, c, Credit))
    {
      GroupAppend(before, p, j, c, Debit);
      GroupAppend(before, p, j, c, Credit);
    }
  }
}
