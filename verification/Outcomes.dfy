/** How the provider's answers are distributed: over any twenty payouts of the default provider, and over the thousand of
    the load provider, told of what the store holds after the submissions. */
module Outcomes {
  import opened Options
  import opened Ledger
  import opened Provider

  // ---------------------------------------------------------------- submissions one after the other

  /** The store after submissions for these settlements in order, and the position after them. */
  function SubmitAll(m: Mode, durable: bool, ops: Operations, position: nat, ids: seq<Id>): (Operations, nat) {
    if ids == [] then (ops, position)
    else
      var (before, p) := SubmitAll(m, durable, ops, position, ids[..|ids| - 1]);
      var id := ids[|ids| - 1];
      (Stored(before, m, id, p), PositionAfter(durable, before, m, id, p))
  }

  ghost predicate Distinct(ids: seq<Id>) { forall i, j | 0 <= i < j < |ids| :: ids[i] != ids[j] }

  ghost predicate Fresh(ops: Operations, ids: seq<Id>) { Distinct(ids) && forall i | 0 <= i < |ids| :: ids[i] !in ops }

  /** The provider takes an operation at every one of these positions. */
  ghost predicate Takes(m: Mode, from: nat, to: nat) {
    forall p: nat | from <= p < to :: OutcomeForPosition(m, p).Some?
  }

  /** Fresh settlements get the outcomes of consecutive positions. */
  lemma {:induction false} StoredInOrder(m: Mode, durable: bool, ops: Operations, position: nat, ids: seq<Id>)
    requires Fresh(ops, ids) && Takes(m, position, position + |ids|)
    ensures var (after, p) := SubmitAll(m, durable, ops, position, ids);
      && p == position + |ids|
      && (forall i | 0 <= i < |ids| :: ids[i] in after && after[ids[i]] == OutcomeForPosition(m, position + i).value)
      && (forall id | id in after :: id in ops || id in ids)
  {
    hide OutcomeForPosition;
    if ids != [] {
      var init, last := ids[..|ids| - 1], ids[|ids| - 1];
      assert ids == init + [last];
      StoredInOrder(m, durable, ops, position, init);
      assert last !in init;
      assert OutcomeForPosition(m, position + |init|).Some?;
    }
  }

  // ---------------------------------------------------------------- counting

  /** What the store answers for each of these settlements. */
  function Held(ops: Operations, ids: seq<Id>): seq<Operation>
    requires forall i | 0 <= i < |ids| :: ids[i] in ops
  {
    seq(|ids|, i requires 0 <= i < |ids| => ops[ids[i]])
  }

  ghost function Count(s: seq<Operation>, counts: Operation -> bool): nat {
    if s == [] then 0 else Count(s[..|s| - 1], counts) + (if counts(s[|s| - 1]) then 1 else 0)
  }

  /** The three answers to a submission, and the two verdicts of a lookup. */
  const AnsweredPaid := (op: Operation) => !op.timesOut && op.submission == Some(SubmittedPaid)

  const AnsweredAmbiguous := (op: Operation) => !op.timesOut && op.submission == Some(Ambiguous)

  const TimedOut := (op: Operation) => op.timesOut

  const OpenThenPaid := (op: Operation) => (op.timesOut || op.submission == Some(Ambiguous)) && op.authority == Paid

  const OpenThenUnpaid := (op: Operation) => (op.timesOut || op.submission == Some(Ambiguous)) && op.authority == Unpaid

  lemma {:induction false} CountConcat(s: seq<Operation>, t: seq<Operation>, counts: Operation -> bool)
    ensures Count(s + t, counts) == Count(s, counts) + Count(t, counts)
  {
    if t == [] {
      assert s + t == s;
    } else {
      assert (s + t)[..|s + t| - 1] == s + t[..|t| - 1];
      CountConcat(s, t[..|t| - 1], counts);
    }
  }

  /** The outcomes of `n` positions from `p` on. */
  function Window(f: nat -> Operation, p: nat, n: nat): seq<Operation> { seq(n, i requires 0 <= i < n => f(p + i)) }

  lemma WindowSplit(f: nat -> Operation, p: nat, k: nat, n: nat, counts: Operation -> bool)
    requires k <= n
    ensures Count(Window(f, p, n), counts) == Count(Window(f, p, k), counts) + Count(Window(f, p + k, n - k), counts)
  {
    assert Window(f, p, n) == Window(f, p, k) + Window(f, p + k, n - k);
    CountConcat(Window(f, p, k), Window(f, p + k, n - k), counts);
  }

  lemma CountOne(x: Operation, counts: Operation -> bool)
    ensures Count([x], counts) == if counts(x) then 1 else 0
  {
    assert [x][..0] == [];
  }

  ghost predicate Periodic(f: nat -> Operation, n: nat) { forall q: nat :: f(q + n) == f(q) }

  /** A window as long as the period has the same counts wherever it stands. */
  lemma {:induction false} AnyWindow(f: nat -> Operation, p: nat, n: nat, counts: Operation -> bool)
    requires n > 0 && Periodic(f, n)
    ensures Count(Window(f, p, n), counts) == Count(Window(f, 0, n), counts)
  {
    hide Window, Count, Periodic;
    if p > 0 {
      AnyWindow(f, p - 1, n, counts);
      SameSingles(f, p - 1, n);
      WindowSplit(f, p - 1, 1, n, counts);
      WindowSplit(f, p, n - 1, n, counts);
    }
  }

  lemma SameSingles(f: nat -> Operation, p: nat, n: nat)
    requires Periodic(f, n)
    ensures Window(f, p + n, 1) == Window(f, p, 1)
  {
  }

  /** All of a window, or none of it. */
  lemma {:induction false} CountAll(f: nat -> Operation, p: nat, n: nat, counts: Operation -> bool, all: bool)
    requires forall i | p <= i < p + n :: counts(f(i)) == all
    ensures Count(Window(f, p, n), counts) == if all then n else 0
  {
    if n > 0 {
      var last := n - 1;
      CountAll(f, p, last, counts, all);
      WindowSplit(f, p, last, n, counts);
      assert Window(f, p + last, 1) == [f(p + last)];
      CountOne(f(p + last), counts);
    } else {
      assert Window(f, p, n) == [];
    }
  }

  lemma CountPair(f: nat -> Operation, q: nat, counts: Operation -> bool)
    requires counts(f(q)) <==> !counts(f(q + 1))
    ensures Count(Window(f, q, 2), counts) == 1
  {
    assert Window(f, q, 2) == [f(q)] + [f(q + 1)];
    CountConcat([f(q)], [f(q + 1)], counts);
    CountOne(f(q), counts);
    CountOne(f(q + 1), counts);
  }

  /** Each position of the window counts just when the next does not. */
  ghost predicate Alternates(f: nat -> Operation, p: nat, n: nat, counts: Operation -> bool) {
    forall i: nat, j: nat | p <= i && j == i + 1 && j < p + n :: counts(f(i)) <==> !counts(f(j))
  }

  lemma AlternatesWithin(f: nat -> Operation, p: nat, n: nat, counts: Operation -> bool)
    requires Alternates(f, p, n, counts) && n >= 2
    ensures Alternates(f, p, n - 2, counts) && (counts(f(p + n - 2)) <==> !counts(f(p + n - 1)))
  {
  }

  lemma CountNothing(f: nat -> Operation, p: nat, counts: Operation -> bool)
    ensures Count(Window(f, p, 0), counts) == 0
  {
    assert Window(f, p, 0) == [];
  }

  lemma {:induction false} CountAlternate(f: nat -> Operation, p: nat, k: nat, counts: Operation -> bool)
    requires Alternates(f, p, 2 * k, counts)
    ensures Count(Window(f, p, 2 * k), counts) == k
  {
    hide Window, Count, Alternates;
    if k > 0 {
      AlternatesWithin(f, p, 2 * k, counts);
      CountAlternate(f, p, k - 1, counts);
      WindowSplit(f, p, 2 * k - 2, 2 * k, counts);
      CountPair(f, p + 2 * k - 2, counts);
    } else {
      CountNothing(f, p, counts);
    }
  }

  // ---------------------------------------------------------------- the default provider

  predicate IsDefault(m: Mode) { !m.loadMode && !Scripted(m) }

  /** The outcomes of a provider that never refuses, as a function of the position. */
  function At(m: Mode): nat -> Operation
    requires forall p: nat :: OutcomeForPosition(m, p).Some?
  {
    (p: nat) => OutcomeForPosition(m, p).value
  }

  lemma DefaultNeverRefuses(m: Mode)
    requires IsDefault(m)
    ensures forall p: nat :: OutcomeForPosition(m, p).Some?
    ensures forall p: nat :: OutcomeForPosition(m, p + 20) == OutcomeForPosition(m, p)
  {
  }

  /** The first twenty outcomes: fourteen PAID; then PAID, UNPAID, PAID behind AMBIGUOUS and UNPAID, PAID, UNPAID behind a timeout. */
  lemma FirstTwenty(m: Mode, counts: Operation -> bool)
    requires IsDefault(m) && forall p: nat :: OutcomeForPosition(m, p).Some?
    ensures Count(Window(At(m), 0, 20), counts)
      == (if counts(Operation(Some(SubmittedPaid), Paid, false)) then 14 else 0)
        + (if counts(Operation(Some(Ambiguous), Paid, false)) then 2 else 0) + (if counts(Operation(Some(Ambiguous), Unpaid, false)) then 1 else 0)
        + (if counts(Operation(None, Paid, true)) then 1 else 0) + (if counts(Operation(None, Unpaid, true)) then 2 else 0)
  {
    var f := At(m);
    CountAll(f, 0, 14, counts, counts(Operation(Some(SubmittedPaid), Paid, false)));
    WindowSplit(f, 0, 14, 20, counts);
    var open := [Operation(Some(Ambiguous), Paid, false)] + [Operation(Some(Ambiguous), Unpaid, false)] + [Operation(Some(Ambiguous), Paid, false)]
      + [Operation(None, Unpaid, true)] + [Operation(None, Paid, true)] + [Operation(None, Unpaid, true)];
    assert Window(f, 14, 6) == open;
    SixCounted(open, counts);
  }

  lemma SixCounted(s: seq<Operation>, counts: Operation -> bool)
    requires |s| == 6
    ensures Count(s, counts) == (if counts(s[0]) then 1 else 0) + (if counts(s[1]) then 1 else 0) + (if counts(s[2]) then 1 else 0)
      + (if counts(s[3]) then 1 else 0) + (if counts(s[4]) then 1 else 0) + (if counts(s[5]) then 1 else 0)
  {
    assert s == [s[0]] + [s[1]] + [s[2]] + [s[3]] + [s[4]] + [s[5]];
    CountConcat([s[0]] + [s[1]] + [s[2]] + [s[3]] + [s[4]], [s[5]], counts);
    CountConcat([s[0]] + [s[1]] + [s[2]] + [s[3]], [s[4]], counts);
    CountConcat([s[0]] + [s[1]] + [s[2]], [s[3]], counts);
    CountConcat([s[0]] + [s[1]], [s[2]], counts);
    CountConcat([s[0]], [s[1]], counts);
    CountOne(s[0], counts); CountOne(s[1], counts); CountOne(s[2], counts); CountOne(s[3], counts); CountOne(s[4], counts); CountOne(s[5], counts);
  }

  /** Any twenty payouts in a row of the default provider, from any store and position: fourteen are answered PAID, three
      AMBIGUOUS and three time out, and of the six left open three turn out paid and three unpaid. */
  lemma TwentyPayouts(m: Mode, durable: bool, ops: Operations, position: nat, ids: seq<Id>)
    requires IsDefault(m) && Fresh(ops, ids) && |ids| == 20
    ensures var after := SubmitAll(m, durable, ops, position, ids).0;
      && (forall i | 0 <= i < 20 :: ids[i] in after)
      && Count(Held(after, ids), AnsweredPaid) == 14
      && Count(Held(after, ids), AnsweredAmbiguous) == 3 && Count(Held(after, ids), TimedOut) == 3
      && Count(Held(after, ids), OpenThenPaid) == 3 && Count(Held(after, ids), OpenThenUnpaid) == 3
  {
    DefaultNeverRefuses(m);
    hide OutcomeForPosition;
    StoredInOrder(m, durable, ops, position, ids);
    var after := SubmitAll(m, durable, ops, position, ids).0;
    assert Held(after, ids) == Window(At(m), position, 20);
    hide SubmitAll, Held, Window, At, Fresh, Count;
    FiveCounts(m, position);
  }

  lemma FiveCounts(m: Mode, position: nat)
    requires IsDefault(m) && forall p: nat :: OutcomeForPosition(m, p).Some?
    ensures var window := Window(At(m), position, 20);
      && Count(window, AnsweredPaid) == 14 && Count(window, AnsweredAmbiguous) == 3 && Count(window, TimedOut) == 3
      && Count(window, OpenThenPaid) == 3 && Count(window, OpenThenUnpaid) == 3
  {
    hide OutcomeForPosition, Window, At, Count;
    WindowCounts(m, position, AnsweredPaid);
    WindowCounts(m, position, AnsweredAmbiguous);
    WindowCounts(m, position, TimedOut);
    WindowCounts(m, position, OpenThenPaid);
    WindowCounts(m, position, OpenThenUnpaid);
  }

  lemma WindowCounts(m: Mode, position: nat, counts: Operation -> bool)
    requires IsDefault(m) && forall p: nat :: OutcomeForPosition(m, p).Some?
    ensures Count(Window(At(m), position, 20), counts)
      == (if counts(Operation(Some(SubmittedPaid), Paid, false)) then 14 else 0)
        + (if counts(Operation(Some(Ambiguous), Paid, false)) then 2 else 0) + (if counts(Operation(Some(Ambiguous), Unpaid, false)) then 1 else 0)
        + (if counts(Operation(None, Paid, true)) then 1 else 0) + (if counts(Operation(None, Unpaid, true)) then 2 else 0)
  {
    DefaultNeverRefuses(m);
    hide OutcomeForPosition, IsDefault;
    assert Periodic(At(m), 20);
    AnyWindow(At(m), position, 20, counts);
    FirstTwenty(m, counts);
  }

  /** Two open payouts in a row of the default provider turn out differently. */
  lemma OpenPayoutsAlternate(m: Mode, position: nat)
    requires IsDefault(m)
    ensures var a, b := OutcomeForPosition(m, position).value, OutcomeForPosition(m, position + 1).value;
      !AnsweredPaid(a) && !AnsweredPaid(b) ==> (a.authority == Paid <==> b.authority == Unpaid) && (a.authority == Paid || a.authority == Unpaid)
  {
  }

  // ---------------------------------------------------------------- the load provider

  /** What an unused load provider has stored for the `i`-th of a thousand payouts. */
  ghost predicate LoadAnswer(op: Operation, i: nat) {
    && (i < 700 <==> AnsweredPaid(op)) && (700 <= i < 850 <==> AnsweredAmbiguous(op)) && (850 <= i <==> TimedOut(op))
    && (i >= 700 ==> (i % 2 == 0 <==> OpenThenPaid(op)) && (i % 2 == 1 <==> OpenThenUnpaid(op)))
    && (i < 700 ==> op.authority == Paid && !OpenThenPaid(op) && !OpenThenUnpaid(op))
  }

  lemma LoadPosition(m: Mode, i: nat)
    requires m.loadMode && i < 1000
    ensures OutcomeForPosition(m, i).Some? && LoadAnswer(OutcomeForPosition(m, i).value, i)
  {
  }

  ghost predicate LoadAnswers(answers: seq<Operation>) {
    |answers| == 1000 && forall i | 0 <= i < 1000 :: LoadAnswer(answers[i], i)
  }

  function Nth(answers: seq<Operation>): nat -> Operation
    requires answers != []
  {
    (i: nat) => if i < |answers| then answers[i] else answers[0]
  }

  /** Seven hundred, a hundred and fifty, a hundred and fifty; and the last three hundred in halves, block by block. */
  lemma LoadCounts(answers: seq<Operation>)
    requires LoadAnswers(answers)
    ensures Count(answers, AnsweredPaid) == 700 && Count(answers, AnsweredAmbiguous) == 150 && Count(answers, TimedOut) == 150
    ensures Count(answers[700..850], OpenThenPaid) == 75 && Count(answers[700..850], OpenThenUnpaid) == 75
    ensures Count(answers[850..], OpenThenPaid) == 75 && Count(answers[850..], OpenThenUnpaid) == 75
  {
    var f := Nth(answers);
    assert forall i: nat | i < 1000 :: LoadAnswer(f(i), i);
    assert Window(f, 0, 1000) == answers && Window(f, 700, 150) == answers[700..850] && Window(f, 850, 150) == answers[850..];
    ThreeBlocks(f, AnsweredPaid);
    ThreeBlocks(f, AnsweredAmbiguous);
    ThreeBlocks(f, TimedOut);
    hide LoadAnswers, Nth;
    LoadBlocks(f);
  }

  lemma ThreeBlocks(f: nat -> Operation, counts: Operation -> bool)
    ensures Count(Window(f, 0, 1000), counts)
      == Count(Window(f, 0, 700), counts) + Count(Window(f, 700, 150), counts) + Count(Window(f, 850, 150), counts)
  {
    WindowSplit(f, 0, 700, 1000, counts);
    WindowSplit(f, 700, 150, 300, counts);
  }

  lemma LoadBlocks(f: nat -> Operation)
    requires forall i: nat | i < 1000 :: LoadAnswer(f(i), i)
    ensures Count(Window(f, 0, 700), AnsweredPaid) == 700 && Count(Window(f, 700, 150), AnsweredPaid) == 0
    ensures Count(Window(f, 850, 150), AnsweredPaid) == 0
    ensures Count(Window(f, 0, 700), AnsweredAmbiguous) == 0 && Count(Window(f, 700, 150), AnsweredAmbiguous) == 150
    ensures Count(Window(f, 850, 150), AnsweredAmbiguous) == 0
    ensures Count(Window(f, 0, 700), TimedOut) == 0 && Count(Window(f, 700, 150), TimedOut) == 0
    ensures Count(Window(f, 850, 150), TimedOut) == 150
    ensures Count(Window(f, 700, 150), OpenThenPaid) == 75 && Count(Window(f, 700, 150), OpenThenUnpaid) == 75
    ensures Count(Window(f, 850, 150), OpenThenPaid) == 75 && Count(Window(f, 850, 150), OpenThenUnpaid) == 75
  {
    BlockCounts(f, AnsweredPaid, true, false, false);
    BlockCounts(f, AnsweredAmbiguous, false, true, false);
    BlockCounts(f, TimedOut, false, false, true);
    HalfAndHalf(f, 700);
    HalfAndHalf(f, 850);
  }

  lemma BlockCounts(f: nat -> Operation, counts: Operation -> bool, first: bool, second: bool, third: bool)
    requires forall i: nat | i < 1000 :: counts(f(i)) == if i < 700 then first else if i < 850 then second else third
    ensures Count(Window(f, 0, 700), counts) == if first then 700 else 0
    ensures Count(Window(f, 700, 150), counts) == if second then 150 else 0
    ensures Count(Window(f, 850, 150), counts) == if third then 150 else 0
  {
    CountAll(f, 0, 700, counts, first);
    CountAll(f, 700, 150, counts, second);
    CountAll(f, 850, 150, counts, third);
  }

  lemma HalfAndHalf(f: nat -> Operation, p: nat)
    requires (forall i: nat | i < 1000 :: LoadAnswer(f(i), i)) && 700 <= p <= 850
    ensures Count(Window(f, p, 150), OpenThenPaid) == 75 && Count(Window(f, p, 150), OpenThenUnpaid) == 75
  {
    forall i: nat, j: nat | p <= i && j == i + 1 && j < p + 150
      ensures OpenThenPaid(f(i)) <==> !OpenThenPaid(f(j))
      ensures OpenThenUnpaid(f(i)) <==> !OpenThenUnpaid(f(j))
    {
      assert LoadAnswer(f(i), i) && LoadAnswer(f(j), j);
    }
    hide LoadAnswer;
    CountAlternate(f, p, 75, OpenThenPaid);
    CountAlternate(f, p, 75, OpenThenUnpaid);
  }

  /** A thousand payouts of an unused load provider: the first seven hundred are answered PAID, the next hundred and fifty
      AMBIGUOUS, the last hundred and fifty time out; the open ones turn out paid and unpaid in turn, half and half in each
      block; and a further payout is not taken. */
  lemma ThousandPayouts(m: Mode, durable: bool, ids: seq<Id>, extra: Id)
    requires m.loadMode && Fresh(map[], ids) && |ids| == 1000 && extra !in ids
    ensures var (after, p) := SubmitAll(m, durable, map[], 0, ids);
      && (forall i | 0 <= i < 1000 :: ids[i] in after && LoadAnswer(after[ids[i]], i))
      && Count(Held(after, ids), AnsweredPaid) == 700 && Count(Held(after, ids), AnsweredAmbiguous) == 150
      && Count(Held(after, ids), TimedOut) == 150
      && Count(Held(after, ids)[700..850], OpenThenPaid) == 75 && Count(Held(after, ids)[700..850], OpenThenUnpaid) == 75
      && Count(Held(after, ids)[850..], OpenThenPaid) == 75 && Count(Held(after, ids)[850..], OpenThenUnpaid) == 75
      && extra !in Stored(after, m, extra, p)
  {
    forall p: nat | p < 1000 ensures OutcomeForPosition(m, p).Some? && LoadAnswer(OutcomeForPosition(m, p).value, p) {
      LoadPosition(m, p);
    }
    NoneAfter(m);
    hide OutcomeForPosition, LoadAnswer;
    StoredInOrder(m, durable, map[], 0, ids);
    var (after, p) := SubmitAll(m, durable, map[], 0, ids);
    hide SubmitAll;
    LoadCounts(Held(after, ids));
  }

  lemma NoneAfter(m: Mode)
    requires m.loadMode
    ensures OutcomeForPosition(m, 1000).None?
  {
  }

  // ---------------------------------------------------------------- a script

  /** A script is played in rounds: UNKNOWN is a timeout with the configured answer to lookups, PAID is paid, and any other
      entry is answered UNPAID and looked up as it stands. */
  lemma ScriptInRounds(m: Mode, ops: Operations, position: nat, id: Id)
    requires Scripted(m) && id !in ops
    ensures var after, entry := Stored(ops, m, id, position), m.outcomes.value[position % |m.outcomes.value|];
      && id in after && (Reply(after, id).None? <==> entry == Unknown)
      && (entry == Unknown ==> LookupOf(after, id) == m.timeoutLookup)
      && (entry == Paid ==> Reply(after, id) == Some(SubmittedPaid) && LookupOf(after, id) == Paid)
      && (entry != Unknown && entry != Paid ==> Reply(after, id) == Some(SubmittedUnpaid) && LookupOf(after, id) == entry)
  {
  }
}
