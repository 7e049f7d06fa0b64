/** The row locks of the transactions: who holds what, who waits for whom, and why nobody waits forever.
    The lock on an index entry stands for a second insertion waiting until the first transaction has ended. */
module Locks {
  import opened Options
  import opened Routing
  import opened Sums
  import opened Ledger

  datatype Lock =
    | KeyEntry(owner: string, key: string)
    | SettlementRow(id: Id)
    | AttemptRow(id: Id)
    | AccountRow(place: nat)
    | EventEntry(id: Id, event: Event)
    | OperationEntry(id: Id)

  /** The transactions of the service, and the provider's own. */
  datatype Job =
    | Creating(owner: string, key: string, id: Id)
    | Claiming(id: Id)
    | Finalizing(id: Id, owner: string, event: Option<Event>)
    | Submitting(id: Id)
    | Batching

  /** Where each account stands in the order of account ids. */
  type Places = AccountKey -> nat

  ghost predicate Distinct(places: Places) { forall a, b :: places(a) == places(b) ==> a == b }

  /** The two accounts of an entry by ascending id, then its place in the index of events. */
  function EntryLocks(places: Places, id: Id, event: Event, owner: string): seq<Lock> {
    var d, c := places(DebitKey(event, owner)), places(CreditKey(event, owner));
    (if d < c then [AccountRow(d), AccountRow(c)] else [AccountRow(c), AccountRow(d)]) + [EventEntry(id, event)]
  }

  /** What a blocking transaction locks, in the order in which it asks. The batch has no such list: it never waits. */
  function Requests(places: Places, job: Job): seq<Lock> {
    match job
    case Creating(owner, key, id) => [KeyEntry(owner, key), SettlementRow(id)] + EntryLocks(places, id, Reserve, owner)
    case Claiming(id) => [SettlementRow(id), AttemptRow(id)]
    case Finalizing(id, owner, event) =>
      [SettlementRow(id), AttemptRow(id)] + (if event.Some? then EntryLocks(places, id, event.value, owner) else [])
    case Submitting(id) => [OperationEntry(id)]
    case Batching => []
  }

  // ---------------------------------------------------------------- the lock manager

  /** A transaction and how many of its requests were granted. */
  datatype Txn = Txn(job: Job, got: nat)

  datatype System = System(txns: map<nat, Txn>, held: map<Lock, nat>)

  /** `Finish` is a commit or early return, `Cancel` an abort at any moment, `Skip` the locking of the batch. */
  datatype Move = Begin(t: nat, job: Job) | Take(t: nat) | Skip(t: nat, rows: set<Lock>) | Finish(t: nat) | Cancel(t: nat)

  predicate Asking(places: Places, s: System, t: nat) { t in s.txns && s.txns[t].got < |Requests(places, s.txns[t].job)| }

  function Next(places: Places, s: System, t: nat): Lock
    requires Asking(places, s, t)
  {
    Requests(places, s.txns[t].job)[s.txns[t].got]
  }

  /** `t` asks for a lock that another transaction `u` holds. */
  predicate Waits(places: Places, s: System, t: nat, u: nat) {
    Asking(places, s, t) && u != t && Next(places, s, t) in s.held && s.held[Next(places, s, t)] == u
  }

  predicate Blocked(places: Places, s: System, t: nat) {
    Asking(places, s, t) && Next(places, s, t) in s.held && s.held[Next(places, s, t)] != t
  }

  function Released(held: map<Lock, nat>, t: nat): map<Lock, nat> { map l | l in held && held[l] != t :: held[l] }

  function Ended(s: System, t: nat): System { System(s.txns - {t}, Released(s.held, t)) }

  /** A move that is not possible, such as taking a lock that another transaction holds, changes nothing. */
  function Moved(places: Places, s: System, m: Move): System {
    match m
    case Begin(t, job) => if t in s.txns then s else s.(txns := s.txns[t := Txn(job, 0)])
    case Take(t) =>
      if !Asking(places, s, t) || Blocked(places, s, t) then s
      else System(s.txns[t := s.txns[t].(got := s.txns[t].got + 1)], s.held[Next(places, s, t) := t])
    case Skip(t, rows) =>
      if t !in s.txns || !s.txns[t].job.Batching? then s
      else s.(held := s.held + (map l | l in rows && l !in s.held :: t))
    case Finish(t) => if t !in s.txns || Blocked(places, s, t) then s else Ended(s, t)
    case Cancel(t) => if t !in s.txns then s else Ended(s, t)
  }

  function MovedAll(places: Places, s: System, moves: seq<Move>): System {
    if moves == [] then s else Moved(places, MovedAll(places, s, moves[..|moves| - 1]), moves[|moves| - 1])
  }

  // ---------------------------------------------------------------- ranks

  function Rank(l: Lock): (nat, nat) {
    match l
    case KeyEntry(_, _) => (0, 0)
    case SettlementRow(_) => (1, 0)
    case AttemptRow(_) => (2, 0)
    case AccountRow(place) => (3, place)
    case EventEntry(_, _) => (4, 0)
    case OperationEntry(_) => (5, 0)
  }

  predicate Below(a: Lock, b: Lock) {
    Rank(a).0 < Rank(b).0 || (Rank(a).0 == Rank(b).0 && Rank(a).1 < Rank(b).1)
  }

  predicate Ascending(locks: seq<Lock>) { forall i, j | 0 <= i < j < |locks| :: Below(locks[i], locks[j]) }

  lemma EntryAscends(places: Places, id: Id, event: Event, owner: string)
    requires Distinct(places) && event != Opening
    ensures Ascending(EntryLocks(places, id, event, owner))
    ensures forall l | l in EntryLocks(places, id, event, owner) :: Rank(l).0 >= 3
  {
    assert DebitKey(event, owner) != CreditKey(event, owner);
  }

  lemma AscendingAppend(low: seq<Lock>, high: seq<Lock>, bound: nat)
    requires Ascending(low) && Ascending(high)
    requires (forall l | l in low :: Rank(l).0 < bound) && (forall l | l in high :: Rank(l).0 >= bound)
    ensures Ascending(low + high)
  {
  }

  /** Every blocking transaction asks in increasing rank. */
  lemma RequestsAscend(places: Places, job: Job)
    requires Distinct(places)
    requires job.Finalizing? ==> job.event != Some(Opening)
    ensures Ascending(Requests(places, job))
  {
    hide EntryLocks, Distinct;
    match job
    case Creating(owner, key, id) =>
      EntryAscends(places, id, Reserve, owner);
      AscendingAppend([KeyEntry(owner, key), SettlementRow(id)], EntryLocks(places, id, Reserve, owner), 3);
    case Finalizing(id, owner, event) =>
      if event.Some? {
        EntryAscends(places, id, event.value, owner);
        AscendingAppend([SettlementRow(id), AttemptRow(id)], EntryLocks(places, id, event.value, owner), 3);
      }
    case _ =>
  }

  /** Locks are held by running transactions, and by a blocking one only as far as it got. */
  ghost predicate Orderly(places: Places, s: System) {
    && (forall t | t in s.txns :: Ascending(Requests(places, s.txns[t].job)) && s.txns[t].got <= |Requests(places, s.txns[t].job)|)
    && (forall l | l in s.held :: HeldInOrder(places, s, l))
  }

  ghost predicate HeldInOrder(places: Places, s: System, l: Lock)
    requires l in s.held
  {
    && s.held[l] in s.txns
    && (Asking(places, s, s.held[l]) ==> Below(l, Next(places, s, s.held[l])))
  }

  lemma NoRequests(places: Places)
    ensures Requests(places, Batching) == []
  {
  }

  lemma TakeOrderly(places: Places, s: System, t: nat)
    requires Orderly(places, s) && Asking(places, s, t) && !Blocked(places, s, t)
    ensures Orderly(places, Moved(places, s, Take(t)))
  {
    hide Requests;
    var u, locks := Moved(places, s, Take(t)), Requests(places, s.txns[t].job);
    forall l | l in u.held ensures HeldInOrder(places, u, l) {
      if l in s.held { assert HeldInOrder(places, s, l); }
      if Asking(places, u, t) { assert Below(locks[s.txns[t].got], locks[u.txns[t].got]); }
    }
  }

  lemma SkipOrderly(places: Places, s: System, t: nat, rows: set<Lock>)
    requires Orderly(places, s) && t in s.txns && s.txns[t].job.Batching?
    ensures Orderly(places, Moved(places, s, Skip(t, rows)))
  {
    var u := Moved(places, s, Skip(t, rows));
    forall l | l in u.held ensures HeldInOrder(places, u, l) {
      NoRequests(places);
      if l in s.held { assert HeldInOrder(places, s, l); }
    }
  }

  lemma EndOrderly(places: Places, s: System, t: nat)
    requires Orderly(places, s)
    ensures Orderly(places, Ended(s, t))
  {
    hide Requests, Below;
    var u := Ended(s, t);
    forall l | l in u.held ensures HeldInOrder(places, u, l) {
      assert HeldInOrder(places, s, l);
    }
  }

  lemma BeginOrderly(places: Places, s: System, t: nat, job: Job)
    requires Orderly(places, s) && t !in s.txns && Ascending(Requests(places, job))
    ensures Orderly(places, Moved(places, s, Begin(t, job)))
  {
    hide Requests, Below;
    var u := Moved(places, s, Begin(t, job));
    forall l | l in u.held ensures HeldInOrder(places, u, l) {
      assert HeldInOrder(places, s, l);
    }
  }

  /** An entry is never an opening entry: those are the seed's. */
  predicate Admissible(m: Move) { m.Begin? && m.job.Finalizing? ==> m.job.event != Some(Opening) }

  lemma MovedOrderly(places: Places, s: System, m: Move)
    requires Distinct(places) && Orderly(places, s) && Admissible(m)
    ensures Orderly(places, Moved(places, s, m))
  {
    hide Requests, Below, Orderly, Released, Distinct;
    match m
    case Begin(t, job) => if t !in s.txns { RequestsAscend(places, job); BeginOrderly(places, s, t, job); }
    case Take(t) => if Asking(places, s, t) && !Blocked(places, s, t) { TakeOrderly(places, s, t); }
    case Skip(t, rows) => if t in s.txns && s.txns[t].job.Batching? { SkipOrderly(places, s, t, rows); }
    case Finish(t) => EndOrderly(places, s, t);
    case Cancel(t) => EndOrderly(places, s, t);
  }

  lemma {:induction false} AlwaysOrderly(places: Places, s: System, moves: seq<Move>)
    requires Distinct(places) && Orderly(places, s) && forall i | 0 <= i < |moves| :: Admissible(moves[i])
    ensures Orderly(places, MovedAll(places, s, moves))
  {
    hide Orderly, Moved, Distinct, Admissible;
    if moves != [] {
      assert Admissible(moves[|moves| - 1]);
      AlwaysOrderly(places, s, moves[..|moves| - 1]);
      MovedOrderly(places, MovedAll(places, s, moves[..|moves| - 1]), moves[|moves| - 1]);
    }
  }

  // ---------------------------------------------------------------- nobody waits in a circle

  /** Whoever is waited for waits, if at all, for a higher lock. */
  lemma WaitsClimb(places: Places, s: System, t: nat, u: nat)
    requires Orderly(places, s) && Waits(places, s, t, u) && Asking(places, s, u)
    ensures Below(Next(places, s, t), Next(places, s, u))
  {
    hide Requests;
    assert HeldInOrder(places, s, Next(places, s, t));
  }

  /** Each waits for the one after it. */
  ghost predicate IsChain(places: Places, s: System, chain: seq<nat>) {
    forall i, n | 0 <= i && n == i + 1 && n < |chain| :: Waits(places, s, chain[i], chain[n])
  }

  lemma {:induction false} ChainClimbs(places: Places, s: System, chain: seq<nat>)
    requires Orderly(places, s) && |chain| >= 2 && IsChain(places, s, chain)
    requires Asking(places, s, chain[|chain| - 1])
    ensures Asking(places, s, chain[0])
    ensures Below(Next(places, s, chain[0]), Next(places, s, chain[|chain| - 1]))
  {
    hide Requests, Orderly;
    var n := |chain|;
    var init := chain[..n - 1];
    assert Waits(places, s, chain[n - 2], chain[n - 1]);
    WaitsClimb(places, s, chain[n - 2], chain[n - 1]);
    if n > 2 {
      ChainClimbs(places, s, init);
    }
  }

  /** In every reachable state, for any number of transactions, the waits-for graph has no cycle. */
  lemma NeverDeadlocked(places: Places, s: System, moves: seq<Move>, chain: seq<nat>)
    requires Distinct(places) && s == System(map[], map[]) && forall i | 0 <= i < |moves| :: Admissible(moves[i])
    requires |chain| >= 2 && IsChain(places, MovedAll(places, s, moves), chain)
    ensures chain[0] != chain[|chain| - 1]
  {
    hide Requests, Orderly;
    var now := MovedAll(places, s, moves);
    assert Orderly(places, s) by { EmptyOrderly(places); }
    AlwaysOrderly(places, s, moves);
    if chain[0] == chain[|chain| - 1] {
      var one, zero := 1, 0;
      assert Waits(places, now, chain[zero], chain[one]);
      ChainClimbs(places, now, chain);
    }
  }

  lemma EmptyOrderly(places: Places)
    ensures Orderly(places, System(map[], map[]))
  {
  }

  // ---------------------------------------------------------------- everybody can finish

  /** The transactions asking for something higher. */
  ghost function Above(places: Places, s: System, t: nat): set<nat>
    requires Asking(places, s, t)
  {
    set u | u in s.txns && Asking(places, s, u) && Below(Next(places, s, t), Next(places, s, u))
  }

  /** Following the waits always ends at a transaction that does not wait. */
  lemma {:induction false} Runnable(places: Places, s: System, t: nat) returns (u: nat)
    requires Orderly(places, s) && t in s.txns
    ensures u in s.txns && !Blocked(places, s, u)
    decreases if Asking(places, s, t) then |Above(places, s, t)| + 1 else 0
  {
    hide Requests;
    if !Blocked(places, s, t) {
      return t;
    }
    u := s.held[Next(places, s, t)];
    assert HeldInOrder(places, s, Next(places, s, t));
    if Asking(places, s, u) {
      WaitsClimb(places, s, t, u);
      FewerAbove(places, s, t, u);
    }
    u := Runnable(places, s, u);
  }

  lemma FewerAbove(places: Places, s: System, t: nat, u: nat)
    requires Asking(places, s, t) && Asking(places, s, u) && Below(Next(places, s, t), Next(places, s, u))
    ensures |Above(places, s, u)| < |Above(places, s, t)|
  {
    hide Requests;
    assert u in Above(places, s, t) - Above(places, s, u);
    assert Above(places, s, t) == Above(places, s, u) + (Above(places, s, t) - Above(places, s, u));
  }

  /** The requests still to be granted, and the end itself. */
  function LeftWeight(places: Places): (nat, Txn) -> int {
    (t: nat, x: Txn) => var left := |Requests(places, x.job)| - x.got; if left >= 0 then left + 1 else 0
  }

  /** No move of the schedule cancels, and none adds work. */
  predicate Completes(m: Move) { m.Take? || m.Finish? }

  /** From every orderly state some schedule grants every request and finishes every transaction, cancelling none. */
  lemma {:induction false} AllFinish(places: Places, s: System) returns (moves: seq<Move>)
    requires Distinct(places) && Orderly(places, s)
    ensures MovedAll(places, s, moves) == System(map[], map[])
    ensures forall i | 0 <= i < |moves| :: Completes(moves[i])
    ensures |moves| == Total(s.txns, LeftWeight(places))
    decreases Total(s.txns, LeftWeight(places))
  {
    hide Requests, Orderly, Moved;
    if s.txns == map[] {
      NothingHeld(places, s);
      return [];
    }
    var t :| t in s.txns;
    t := Runnable(places, s, t);
    var m := if Asking(places, s, t) then Take(t) else Finish(t);
    OneLess(places, s, t);
    MovedOrderly(places, s, m);
    var rest := AllFinish(places, Moved(places, s, m));
    moves := [m] + rest;
    FirstMove(places, s, m, rest);
  }

  lemma NothingHeld(places: Places, s: System)
    requires Orderly(places, s) && s.txns == map[]
    ensures s.held == map[]
  {
    assert forall l | l in s.held :: HeldInOrder(places, s, l);
  }

  lemma OneLess(places: Places, s: System, t: nat)
    requires Orderly(places, s) && t in s.txns && !Blocked(places, s, t)
    ensures var m := if Asking(places, s, t) then Take(t) else Finish(t);
      0 <= Total(Moved(places, s, m).txns, LeftWeight(places)) == Total(s.txns, LeftWeight(places)) - 1
  {
    hide Requests;
    var w := LeftWeight(places);
    if Asking(places, s, t) {
      var x := s.txns[t].(got := s.txns[t].got + 1);
      TotalUpdate(s.txns, w, t, x);
      TotalNonNegative(s.txns[t := x], w);
    } else {
      TotalRemove(s.txns, w, t);
      TotalNonNegative(s.txns - {t}, w);
    }
  }

  lemma {:induction false} FirstMove(places: Places, s: System, m: Move, rest: seq<Move>)
    ensures MovedAll(places, s, [m] + rest) == MovedAll(places, Moved(places, s, m), rest)
  {
    hide Moved;
    if rest == [] {
      assert [m] + rest == [m] && [m][..0] == [];
      assert MovedAll(places, s, [m][..0]) == s;
    } else {
      assert ([m] + rest)[..|rest|] == [m] + rest[..|rest| - 1];
      FirstMove(places, s, m, rest[..|rest| - 1]);
    }
  }

  // ---------------------------------------------------------------- who has its locks has them alone

  /** Every lock that was granted to a transaction is still held by it. */
  ghost predicate KeepsGrants(places: Places, s: System) {
    forall t, i | t in s.txns && 0 <= i < s.txns[t].got && i < |Requests(places, s.txns[t].job)| ::
      HeldBy(s, Requests(places, s.txns[t].job)[i], t)
  }

  predicate HeldBy(s: System, l: Lock, t: nat) { l in s.held && s.held[l] == t }

  lemma MovedKeepsGrants(places: Places, s: System, m: Move)
    requires KeepsGrants(places, s)
    ensures KeepsGrants(places, Moved(places, s, m))
  {
    hide Requests;
    var u := Moved(places, s, m);
    forall t, i | t in u.txns && 0 <= i < u.txns[t].got && i < |Requests(places, u.txns[t].job)|
      ensures HeldBy(u, Requests(places, u.txns[t].job)[i], t)
    {
      if t in s.txns && i < s.txns[t].got { assert HeldBy(s, Requests(places, s.txns[t].job)[i], t); }
    }
  }

  lemma {:induction false} AlwaysKeepsGrants(places: Places, s: System, moves: seq<Move>)
    requires KeepsGrants(places, s)
    ensures KeepsGrants(places, MovedAll(places, s, moves))
  {
    hide KeepsGrants, Moved;
    if moves != [] {
      AlwaysKeepsGrants(places, s, moves[..|moves| - 1]);
      MovedKeepsGrants(places, MovedAll(places, s, moves[..|moves| - 1]), moves[|moves| - 1]);
    }
  }

  /** The transaction has been granted the row of the settlement by which it decides. */
  predicate DecidesBy(x: Txn, id: Id) {
    match x.job
    case Creating(_, _, i) => i == id && x.got >= 2
    case Claiming(i) => i == id && x.got >= 1
    case Finalizing(i, _, _) => i == id && x.got >= 1
    case _ => false
  }

  /** The transaction has been granted the attempt as well. */
  predicate HasAttempt(x: Txn, id: Id) {
    match x.job
    case Claiming(i) => i == id && x.got >= 2
    case Finalizing(i, _, _) => i == id && x.got >= 2
    case _ => false
  }

  /** The transaction has been granted the accounts between which it moves money, and this is one of them. */
  predicate MovesMoney(x: Txn, a: AccountKey) {
    match x.job
    case Creating(o, _, _) => x.got >= 4 && (a == AccountKey(o, USD, Available) || a == AccountKey(o, USD, Reserved))
    case Finalizing(_, o, Some(Consume)) => x.got >= 4 && (a == AccountKey(o, USD, Reserved) || a == AccountKey("system", USD, Omnibus))
    case Finalizing(_, o, Some(Release)) => x.got >= 4 && (a == AccountKey(o, USD, Reserved) || a == AccountKey(o, USD, Available))
    case _ => false
  }

  /** The transaction has been granted the place of its event. */
  predicate Records(x: Txn, id: Id, event: Event) {
    match x.job
    case Creating(_, _, i) => i == id && event == Reserve && x.got >= 5
    case Finalizing(i, _, e) => i == id && e == Some(event) && x.got >= 5
    case _ => false
  }

  /** The provider's transaction has been granted the place of the operation. */
  predicate Allocates(x: Txn, id: Id) { x.job == Submitting(id) && x.got >= 1 }

  /** The transaction has been granted the place of its key. */
  predicate HasKeyEntry(x: Txn, owner: string, key: string) {
    x.job.Creating? && x.job.owner == owner && x.job.key == key && x.got >= 1
  }

  lemma GrantedAt(places: Places, s: System, t: nat, i: nat)
    requires KeepsGrants(places, s) && t in s.txns && i < s.txns[t].got && i < |Requests(places, s.txns[t].job)|
    ensures HeldBy(s, Requests(places, s.txns[t].job)[i], t)
  {
  }

  lemma DeciderHolds(places: Places, s: System, t: nat, id: Id)
    requires KeepsGrants(places, s) && t in s.txns
    ensures DecidesBy(s.txns[t], id) ==> HeldBy(s, SettlementRow(id), t)
    ensures HasAttempt(s.txns[t], id) ==> HeldBy(s, AttemptRow(id), t)
  {
    hide KeepsGrants, EntryLocks;
    var x := s.txns[t];
    if DecidesBy(x, id) { GrantedAt(places, s, t, if x.job.Creating? then 1 else 0); }
    if HasAttempt(x, id) { GrantedAt(places, s, t, 1); }
  }

  lemma MoverHolds(places: Places, s: System, t: nat, a: AccountKey)
    requires KeepsGrants(places, s) && t in s.txns && MovesMoney(s.txns[t], a)
    ensures HeldBy(s, AccountRow(places(a)), t)
  {
    hide KeepsGrants;
    GrantedAt(places, s, t, 2);
    GrantedAt(places, s, t, 3);
  }

  lemma RecorderHolds(places: Places, s: System, t: nat, id: Id, event: Event)
    requires KeepsGrants(places, s) && t in s.txns
    ensures Records(s.txns[t], id, event) ==> HeldBy(s, EventEntry(id, event), t)
    ensures Allocates(s.txns[t], id) ==> HeldBy(s, OperationEntry(id), t)
  {
    hide KeepsGrants;
    if Records(s.txns[t], id, event) { GrantedAt(places, s, t, 4); }
    if Allocates(s.txns[t], id) { GrantedAt(places, s, t, 0); }
  }

  lemma KeyHolder(places: Places, s: System, t: nat, owner: string, key: string)
    requires KeepsGrants(places, s) && t in s.txns && HasKeyEntry(s.txns[t], owner, key)
    ensures HeldBy(s, KeyEntry(owner, key), t)
  {
    hide KeepsGrants, EntryLocks;
    GrantedAt(places, s, t, 0);
  }

  /** In every reachable state, with any number of transactions: no two decide by the same settlement or hold its attempt, no
      two move money on the same account, the system's included, and no two are past the insertion of the same key, event or
      operation. */
  lemma DecidersExclude(places: Places, moves: seq<Move>, t: nat, u: nat, id: Id, owner: string, key: string, a: AccountKey, event: Event)
    requires var now := MovedAll(places, System(map[], map[]), moves); t in now.txns && u in now.txns && t != u
    ensures var now := MovedAll(places, System(map[], map[]), moves);
      && !(DecidesBy(now.txns[t], id) && DecidesBy(now.txns[u], id))
      && !(HasAttempt(now.txns[t], id) && HasAttempt(now.txns[u], id))
      && !(MovesMoney(now.txns[t], a) && MovesMoney(now.txns[u], a))
      && !(Records(now.txns[t], id, event) && Records(now.txns[u], id, event))
      && !(Allocates(now.txns[t], id) && Allocates(now.txns[u], id))
      && !(HasKeyEntry(now.txns[t], owner, key) && HasKeyEntry(now.txns[u], owner, key))
  {
    hide KeepsGrants, Moved, DecidesBy, HasAttempt, MovesMoney, HasKeyEntry, Records, Allocates;
    var s := System(map[], map[]);
    assert KeepsGrants(places, s) by { NobodyYet(places); }
    AlwaysKeepsGrants(places, s, moves);
    var now := MovedAll(places, s, moves);
    DeciderHolds(places, now, t, id);
    DeciderHolds(places, now, u, id);
    RecorderHolds(places, now, t, id, event);
    RecorderHolds(places, now, u, id, event);
    if MovesMoney(now.txns[t], a) && MovesMoney(now.txns[u], a) {
      MoverHolds(places, now, t, a);
      MoverHolds(places, now, u, a);
    }
    if HasKeyEntry(now.txns[t], owner, key) && HasKeyEntry(now.txns[u], owner, key) {
      KeyHolder(places, now, t, owner, key);
      KeyHolder(places, now, u, owner, key);
    }
  }

  lemma NobodyYet(places: Places)
    ensures KeepsGrants(places, System(map[], map[]))
  {
  }

  /** What the background has locked, nobody else decides by. */
  lemma BatchExcludes(places: Places, moves: seq<Move>, t: nat, u: nat, id: Id)
    requires var now := MovedAll(places, System(map[], map[]), moves);
      t in now.txns && u in now.txns && t != u && HeldBy(now, SettlementRow(id), t)
    ensures !DecidesBy(MovedAll(places, System(map[], map[]), moves).txns[u], id)
  {
    hide KeepsGrants, Moved, DecidesBy;
    var s := System(map[], map[]);
    assert KeepsGrants(places, s) by { NobodyYet(places); }
    AlwaysKeepsGrants(places, s, moves);
    DeciderHolds(places, MovedAll(places, s, moves), u, id);
  }
}
