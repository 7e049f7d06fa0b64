# Settlement service and FX router: a verified model

This project models a payout service and proves what its parts promise together.

- **The settlement protocol.** Any number of concurrent calls insert settlements, reserve money, claim payout
  attempts under leases and fencing tokens, call an idempotent provider outside any transaction, and finalize.
  `Ledger`, `Service` and `Provider` hold the tables as classes whose methods follow the program, each proved equal to
  a function on the contents of the tables. `Protocol` turns these functions into a step relation: a call advances one
  transaction or one provider exchange at a time, in any order; a call that is never advanced has stalled or crashed;
  each exchange may be lost before or after it took effect, so late and repeated work under an old token is covered.
  The provider's next position is part of the state: in memory the number of operations, in the database a sequence
  that may skip. `Accounting`, `Fencing`, `IdempotentCreate`, `Agreement`, `Progress` and `BatchFairness` prove
  properties of all runs; `Endings` decides for every configuration which settlements can still end; `Exhaustion` and
  `LateWork` build the runs that show where the promises end. `Answers`, `Claims`, `Rows` and `Entries` say, again over all
  runs, what callers are told, what a claim leaves behind, what a settlement's row says of its request and quote, and what
  its journals hold; `Undisturbed` follows a call that meets no fault to its answer; `Outcomes` counts the provider's answers.
- **Around it.** `Seed` opens the ledger and validates it again after any history; `JournalGuards` is the database's
  own protection of journals, statement by statement; `Recording` sends the entries of whole runs through it; `Locks` is
  the row locking of the transactions; `Fingerprint` is the canonical request string.
- **The router.** `Routing` is the program: collapse of parallel edges, relaxation over copies, early exit, one extra
  relaxation that rejects the graph. `Walks` and `BoundedWalks` prove what holds for every monotone multiplication, and
  so under rounding; `ExactRoutes` what holds with exact rates; `Ties` spells out, without the program's keys, which of
  two equal routes is published; `RateFeed`, `RoundedFeed` and `FeedQuotes` are the generated rates, exact, rounded and
  used for quotes. `Decimals` is rounding to a number of digits, `ContextRoutes` the router in its own 38-digit context,
  and `RateBooks` the published snapshot. `Options`, `Orders`, `Reals` and `Sums` are shared.

Money is counted in units of the eighth decimal. Each transaction is one atomic step because the rows it
decides by stay locked until it ends; `Locks` shows that no two transactions decide by the same rows at once and that
this locking never deadlocks. Generated identifiers, the published quote, the gaps of the provider's sequence, the
clock and the rows another transaction holds are inputs chosen by the environment.

## Where the documentation and the code differ

- `ARCHITECTURE.md:117-119` says another process can resume reconciliation after a crash. The background batch picks
  only SUBMITTING and RECONCILING rows (`app/service.py:286`). `BatchFairness.PassesPickIffNotClaimed` proves that enough
  passes recover an overdue row if and only if it is not CLAIMED, `BatchFairness.AbandonedClaimStays` that a CLAIMED row
  stays through every run until it is claimed by hand or its own result arrives, and `LateWork.AbandonedClaimReachable`
  gives a run that leaves such a row behind.
- The repository's `README.md:57-58` says posted journals and postings cannot change. The posting guard looks at the new
  `journal_id` of an UPDATE only, so a posting can be moved out of a committed journal.
  `JournalGuards.TakingBreaksHistory` gives the statements, `JournalGuards.HistorySurvivesIff` the exact condition.
- `ARCHITECTURE.md:171-173` says a result is applied only if the token still owns the lease. The code compares the token
  alone (`app/service.py:374`). `LateWork.AppliedIffTokenIsCurrent` proves that a result is applied if and only if its
  token is the row's and the settlement has not ended, whatever the clock and the lease;
  `LateWork.ExpiredLeaseStillApplies` gives a run in which the lease has expired and the payout is still recorded.
- `ARCHITECTURE.md:130-131` says a pending settlement can later transition. In load mode the provider refuses every
  submission after its thousandth position (`app/provider.py:123`). `Progress.CanEndIff` proves that a settlement can
  still end if and only if it has an operation, the mode is another one, or positions are left;
  `Exhaustion.LoadProviderRunsDry` gives the run that leaves a settlement which never ends. `Endings.CanEndExactly` is
  the condition for every configuration, and `Endings.UnknownScriptStrands` another one that strands a settlement.
- The repository's `README.md:50-51` says reachable profitable cycles are rejected. The program multiplies in a context of
  38 digits, and a gain below the last digit goes unnoticed: `ContextRoutes.ContextMissesArbitrage` gives a graph.
  `ContextRoutes.ContextRejectedIff` says exactly which graphs are rejected, and `ContextRoutes.ShortRatesAreExact` that
  with rates of at most seven digits, wherever the decimal point, the promise holds to the letter.

## Model

| member | source | states |
|---|---|---|
| Protocol.EveryStateBalances | app/service.py:53-400 | In every reachable state of every interleaving each owner's RESERVED balance is the sum of that owner's open settlements, AVAILABLE is the opening less everything not FAILED, OMNIBUS USD equals all customer balances and has dropped by exactly the SUCCESS amounts, the audit passes, and no finalization, late or stale, can be refused by the ledger |
| Protocol.AlwaysConsistent | app/service.py:189-400 | The table invariant (balances, journals of each settlement, attempts, unique keys) holds after every run |
| Protocol.ChangedConsistent | app/ledger.py:58-130 | Each kind of table change keeps that invariant |
| Accounting.InsertConsistent | app/service.py:92-96 | Insertion with its reservation keeps the invariant |
| Accounting.FinalizeConsistent | app/service.py:352-400 | Finalization with any result and any token keeps the invariant |
| Accounting.FinalizeNeverRefused | app/service.py:381-390 | In a consistent state `consume` and `release` never meet insufficient funds, a missing account or a duplicate event |
| Accounting.EntryOutcome | app/ledger.py:58-72 | For a charted owner an entry is accepted exactly when the balances suffice and the event is new |
| Entries.EveryJournalTells | app/ledger.py:58-130 | In every reachable state each journal of a settlement is posted and has exactly its two postings: RESERVE debits AVAILABLE and credits RESERVED, CONSUME debits RESERVED and credits the system's OMNIBUS, RELEASE debits RESERVED and credits AVAILABLE, in dollars, on the settlement's owner, for its amount |
| Rows.RowsAlwaysTell | app/service.py:66-90 | In every reachable state each row's fingerprint is the request string of its owner, an amount of exactly its value, and its target; its quoted amount is that value at the rate of its quote, but for one rounding to 28 digits and one to the eighth decimal |
| Rows.CreateGetsWhatItAsked | app/service.py:53-127 | Every `create` that has returned got a settlement of its owner and key, for the value and the target it asked |
| Rows.QuotesWerePublished | app/service.py:66-90 | In every reachable state the quote in a row is one that was published, earlier in the run, to the very call that inserted the row |
| Rows.ColumnsHold | app/models.py:117-118 | Every rate of up to sixteen digits before the point whose quoted amount has up to twenty-four can be stored |
| Rows.ColumnsOverflow | app/models.py:117-118 | Outside these ranges nothing can be stored |
| Agreement.TerminalAgreesWithProvider | app/service.py:308-400 | For a definitive provider SUCCESS means authority PAID and exactly one CONSUME, FAILED means UNPAID and exactly one RELEASE, one RESERVE always, and the Omnibus drop is the sum of the successes |
| Agreement.JournalCounts | app/models.py:160-166 | The number of journals of each event follows from the status |
| Agreement.OperationsAreWriteOnce | app/provider.py:80-85 | However often submissions run, a stored operation never changes |
| Agreement.AlwaysAgreed | app/service.py:314-336 | Every definitive result a call carries, however late, is the provider's authority |
| Exhaustion.AgreementIffDefinitive | app/provider.py:104-133 | With money for one round of a script, ledger and provider agree in all runs if and only if the provider's definitive submissions equal its authority; positions are handed out in order |
| Exhaustion.UnfaithfulShows | app/provider.py:104-133 | A position whose submission differs from its authority is found out by the run that pays for all positions up to it |
| Exhaustion.LoadProviderRunsDry | app/provider.py:112-123 | From every funded initial state a run of a thousand payouts leads to a settlement that never ends, whatever happens next |
| Progress.EverySettlementCanEnd | app/service.py:136-149 | From every reachable state each settlement that has an operation, or for which the provider takes one, has a schedule of at most thirteen steps to SUCCESS or FAILED, however many positions the sequence skips, when stored authorities are PAID or UNPAID |
| Endings.CanEndExactly | app/service.py:308-350 | For every configuration a settlement of a reachable state can still end if and only if it has, a call holds its answer under the row's token, its stored operation settles it, or it has none and some position still to come does; a script kept in memory needs money to get there |
| Endings.StuckForever | app/provider.py:124-133 | A settlement for which none of these holds stays open in every run |
| Endings.UnknownScriptStrands | app/provider.py:54-127 | With a script of UNKNOWN only and an undecided answer to lookups, a funded request is stranded for ever |
| Progress.CanEndIff | app/provider.py:109-143 | Where stored authorities are PAID or UNPAID this comes to: it has an operation, or the mode is not load, or fewer than a thousand positions are used |
| Progress.ExhaustedNeverEnds | app/provider.py:112-123 | Once the load provider is exhausted a settlement without an operation never ends in any run |
| Progress.PositionsCountOperations | app/provider.py:80-85 | In all runs the position in memory is the number of operations, and a sequence is never behind it |
| Provider.DefinitiveIff | app/provider.py:109-143 | Which configurations have definitive submissions equal to their authority: all but scripts naming something else than PAID, UNPAID, UNKNOWN |
| Provider.SettlingIff | app/provider.py:109-147 | Which configurations always store PAID or UNPAID |
| Provider.RowRoundTrip | app/provider.py:166-197 | An operation read back from its database row is the one that was stored |
| Provider.MockPayoutProvider.Initiate | app/provider.py:68-91 | A first submission stores the outcome of the next position, a repeated one changes nothing, and both answer from what is stored |
| Provider.MockPayoutProvider.LookUp | app/provider.py:100-107 | A lookup answers the stored authority or NOT_FOUND |
| Provider.DurablePayoutProvider.Initiate | app/provider.py:149-197 | The same with database rows, where ordinals may skip |
| Outcomes.StoredInOrder | app/provider.py:80-85 | Fresh settlements submitted one after the other get the outcomes of consecutive positions |
| Outcomes.TwentyPayouts | README.md:125-128 | Any twenty payouts in a row of the default provider, in memory or in the database, from any store and position: fourteen answered PAID, three AMBIGUOUS, three timeouts, and of the six left open three turn out paid and three unpaid |
| Outcomes.OpenPayoutsAlternate | app/provider.py:134-147 | Two open payouts in a row of the default provider turn out differently |
| Outcomes.ThousandPayouts | app/provider.py:112-123 | A thousand payouts of an unused load provider: the first 700 PAID, the next 150 AMBIGUOUS, the last 150 timeouts, each of these two blocks half paid and half unpaid in turn; no further one is taken |
| Outcomes.ScriptInRounds | app/provider.py:124-133 | A script is played in rounds: UNKNOWN times out with the configured lookup, PAID is paid, any other entry is answered UNPAID and looked up as it stands |
| Fencing.StatusesOnlyProgress | app/service.py:189-400 | In all runs a settlement's facts stay and its status only moves up RESERVED, PAYOUT_IN_PROGRESS, PENDING_RECONCILIATION, terminal |
| Fencing.TokensStrictlyIncrease | app/service.py:201-306 | In all runs the tokens issued for a settlement are pairwise distinct and strictly increasing, and the last is the one in its row |
| Fencing.StaleFinalizeIsNoOp | app/service.py:374-375 | A finalization under any token but the last issued, superseded or never issued, changes nothing |
| LateWork.AppliedIffTokenIsCurrent | app/service.py:374-399 | For every clock and lease a result is applied if and only if its token is the row's and the settlement is open; otherwise nothing changes |
| LateWork.ExpiredLeaseStillApplies | app/service.py:374 | A reachable state whose lease has expired and whose late result is still applied |
| LateWork.AbandonedClaimReachable | app/service.py:286 | A reachable overdue CLAIMED row of the background batch, which stays until somebody attends to it |
| Claims.TokenComesWithLease | app/service.py:201-265 | Whoever is issued a token at clock t, first, by hand or by a batch, leaves the row under that token with a lease until exactly t plus the lease time: SUBMITTING after a first claim, CLAIMED otherwise |
| Claims.ClaimExcludes | app/service.py:254-306 | After a claim by hand or by a batch at clock t no token is issued for the settlement, and its row stays as it is, in any continuation whose clock stays below t plus the lease time and in which no result arrives under that token |
| Claims.FirstClaimExcludes | app/service.py:189-215 | After a first claim at clock t the same holds of every continuation without a claim by hand: no batch picks the row before t plus the lease time |
| Claims.LeaseKeepsOut | app/service.py:254-306 | From any consistent state an unexpired lease keeps the row as it is and keeps everybody out, under the same conditions |
| Claims.HandClaimGrantedIff | app/service.py:232-257 | A claim by hand is granted if and only if the settlement is in payout and the lease has run out, or the row is not CLAIMED and the schedule is not asked for; a refused one changes nothing |
| Claims.HandClaimLeases | app/service.py:243-265 | In any tables, with or without a row of the attempt, a claim by hand takes the next token, or the first, leases the row for the full time, and changes nothing else |
| Claims.BatchRows | app/service.py:271-294 | With room left a batch is exactly the unlocked rows in payout, SUBMITTING or RECONCILING, whose lease has run out; always ordered by lease, then settlement |
| Claims.OutcomeIsWritten | app/service.py:381-399 | What a finalization under the row's token writes for each result: status, state and recorded outcome, and without a conclusion a row due at once |
| Claims.OnlyResultsAreRecorded | app/service.py:385-398 | Only a finalization changes the recorded outcome of an attempt |
| Fencing.LeaseExcludes | app/service.py:254-257 | While an attempt is CLAIMED with an unexpired lease no action issues a token for it |
| Fencing.TerminalIsFinal | app/service.py:376-380 | After a terminal status no action changes the settlement or its attempt or issues a token |
| IdempotentCreate.CreateIsLinearizable | app/service.py:53-127 | All returned calls of one owner and key give one settlement with one fingerprint, a conflict is raised only against a different fingerprint, and the reload after a unique violation always finds the winner |
| IdempotentCreate.ContradictionIsReported | app/service.py:405-408 | A call that finds a row of a different fingerprint raises the conflict |
| IdempotentCreate.ContradictedNeverReturns | app/service.py:60-65 | A contradicted call never claims, submits, finalizes or returns |
| IdempotentCreate.OneCreateWins | app/service.py:189-215 | In all runs at most one create call per settlement is ever given a token |
| IdempotentCreate.OneCreateInitiates | app/service.py:107-117 | In every reachable state at most one call stands before the first submission of a settlement, and it is a create |
| IdempotentCreate.TokensAreNotShared | app/service.py:258-265 | No two calls ever work under the same token of a settlement |
| Answers.ReturnedStatusIsTheRows | app/service.py:53-150 | Whenever any call comes to return a settlement and a status, the row exists and has that status at that moment |
| Answers.AnswersStayTrue | app/service.py:53-150 | In all runs a returned status is never ahead of its row's, and a returned SUCCESS or FAILED is the row's for ever |
| Answers.InsertionAnswers | app/service.py:91-105 | Which insertions go through, which are refused for funds, and which meet the key of another settlement, each if and only if |
| Answers.RaisedHasCause | app/service.py:53-150 | Every error a call raises has its cause: no route only without a quote, a conflict only against a different fingerprint, a failure of the provider only to a manual reconciliation, a missing settlement only where its row or its attempt is missing, a refusal of the ledger only at insertion, a missing winner never |
| Answers.SubmitsAgainOnlyIfMissing | app/service.py:314-329 | A reconciliation submits again only after a lookup that did not find the operation, for the same settlement under the same token |
| Answers.ClaimsAreWorkedOff | app/service.py:107-127 | A call that was issued a token goes on under it and lets go only by finalizing under it; a reconciliation whose finalization was disturbed first tries once more without a result |
| Answers.ResultsAreHeard | app/service.py:314-336 | What a call finalizes with is what it has just been told: the answer to its submission or the verdict of its lookup, and nothing where the exchange was disturbed, timed out, or told neither PAID nor UNPAID |
| Answers.FailureIsReported | app/service.py:339-350 | A failed reconciliation finalizes without a result; then a manual one raises the failure and one of the background reads the row |
| Answers.CallsBegin | app/service.py:136-156 | Requests begin at their lookup, manual reconciliations at their check, and each claim of a batch at the provider's lookup under the token it was issued |
| Undisturbed.UndisturbedCreate | app/service.py:53-127 | From any consistent state a funded new request that meets no fault is answered in six steps by what the outcome at the provider's next position says: SUCCESS, FAILED, or pending for an ambiguous answer or a timeout |
| Undisturbed.UndisturbedReconcile | app/service.py:136-149 | A manual reconciliation after the lease is answered in six steps with what the provider has decided |
| Undisturbed.UndisturbedResubmission | app/service.py:314-336 | Where the provider has no operation, it submits one under the settlement's own identifier and is answered with its outcome |
| BatchFairness.BoundedWaiting | app/service.py:267-306 | An overdue row with k rows ahead of it is claimed, or finalized by its holder, before k/limit + 1 passes are over |
| BatchFairness.WaitingBudget | app/service.py:288-299 | While a row is left alone each pass uses up `limit` of the rows ahead of it and none comes back |
| BatchFairness.StepNeverOvertakes | app/service.py:391-399 | No action of any call puts a row ahead of an overdue one |
| BatchFairness.BatchIsUnique | app/service.py:271-294 | The batch is determined: the earliest due free rows by lease and settlement, no row twice |
| BatchFairness.PassesPickIffNotClaimed | app/service.py:286 | Enough passes pick an overdue row in payout that nobody attends to if and only if it is not CLAIMED |
| BatchFairness.AbandonedClaimStays | app/service.py:286 | Through every run in which nobody claims the row by hand and its own result does not arrive, a CLAIMED row stays as it is, even after its lease |
| BatchFairness.BatchExists | app/service.py:271-294 | For every clock, limit and set of locked rows there is a batch |
| Service.SettlementTables.FindByKey | app/service.py:177-187 | Finds a settlement of the owner and key exactly when there is one |
| Service.SettlementTables.Insert | app/service.py:87-98 | The new tables, or which constraint (rate and quoted amount positive and within their columns as stored, unique key) or ledger refusal rolled the transaction back |
| Service.SettlementTables.ClaimReservedRow | app/service.py:189-215 | Only a RESERVED row is claimed, with token one |
| Service.SettlementTables.ClaimForReconciliationRow | app/service.py:217-265 | The claim with its lease and schedule rules, and the next token |
| Service.SettlementTables.SelectDue | app/service.py:271-294 | The rows are the `limit` earliest due rows that are not locked |
| Service.SettlementTables.ClaimDueBatch | app/service.py:267-306 | Every selected row is claimed under its next token, and nothing else changes |
| Service.SettlementTables.Finalize | app/service.py:352-400 | Stale tokens abort, terminal rows stay, a result consumes, releases or reschedules; a refusal changes nothing |
| Ledger.LedgerTables.ApplyPosting | app/ledger.py:24-32 | One balance moves by the account's normal side; refused exactly when it would be negative |
| Ledger.LedgerTables.PostEntry | app/ledger.py:58-100 | The posted entry, or its refusal (funds, repeated event, non-positive posting) with everything rolled back |
| Ledger.PostKeepsSound | app/ledger.py:58-100 | Every accepted entry keeps balances non-negative, journals balanced and balances equal to their replay |
| Ledger.PairKeepsBalance | app/ledger.py:79-96 | Two opposite postings keep every (journal, currency) group balanced |
| Ledger.AssertLedgerInvariants | app/ledger.py:133-182 | The audit passes if and only if balances are non-negative, groups balance and balances equal the signed replay, and it names the first failing check |
| Seed.SeedDemoAccounts | app/seed.py:116-205 | Seeds, validates, or refuses and leaves the ledger as it was |
| Seed.ValidateExistingSeed | app/seed.py:57-113 | Accepts exactly a ledger with the expected accounts, one opening journal with the expected postings, and sound books |
| Seed.FreshSeed | app/seed.py:139-205 | Seeding an empty ledger succeeds and gives a state the protocol starts from |
| Seed.FreshLedger | app/seed.py:139-205 | The whole ledger that seeding an empty one leaves, account by account and posting by posting |
| Seed.RejectedIffNotPositive | app/seed.py:131-197 | A seed is rejected for its amount if and only if nothing of it is there yet and the amount is not positive |
| Seed.DefectsAreRefused | app/seed.py:57-113 | Any one defect of an existing seed is refused: an account missing or of the wrong class, no or several opening journals, other postings, or unsound books |
| Seed.HalfSeededIsRefused | app/seed.py:122-137 | A ledger with part of the accounts, or an opening journal without the customer's accounts, is refused |
| Seed.HistoryIsAppendOnly | app/ledger.py:72-100 | In all runs earlier journals and postings stay and no account appears or changes class |
| Seed.SeedingAgain | app/seed.py:57-135 | After any run from a seeded ledger, seeding again validates and changes nothing if and only if owner and amount are the same |
| JournalGuards.CommittedJournalsAreFinal | alembic/versions/0002_durable_payout_and_ledger_guards.py:76-164 | Over any statements, commits and rollbacks that take no posting away from a committed journal, every committed journal is posted, has two postings or more, balances per currency, and never changes again |
| JournalGuards.HistorySurvivesIff | alembic/versions/0002_durable_payout_and_ledger_guards.py:78-96 | A committed transaction leaves all earlier journals as they were if and only if none of its updates moves a posting out of one |
| JournalGuards.TakingBreaksHistory | alembic/versions/0002_durable_payout_and_ledger_guards.py:83 | A transaction that moves a posting out of a committed journal and commits, leaving it incomplete |
| JournalGuards.PostedOnlyShrinks | alembic/versions/0002_durable_payout_and_ledger_guards.py:78-126 | No statement adds to a posted journal, changes one of its postings or its row |
| JournalGuards.PostedTooEarlyNeverCommits | alembic/versions/0002_durable_payout_and_ledger_guards.py:139-144 | A journal posted before its postings are written can never be committed |
| JournalGuards.EntryTripsNoGuard | app/ledger.py:72-100 | The ledger's order of statements is refused only for a non-positive amount or a repeated event, passes its own commit check and spoils no other |
| JournalGuards.AcceptedIff | alembic/versions/0002_durable_payout_and_ledger_guards.py:76-126 | For every table state and statement, the condition on journals and postings under which it is accepted |
| JournalGuards.OnlyItsRow | alembic/versions/0002_durable_payout_and_ledger_guards.py:76-126 | An accepted statement leaves its own row as it says, and every other row as it was |
| Recording.RunIsRecorded | app/ledger.py:72-100 | From a sealed database holding the books of the first state, the entries of any run are accepted statement by statement and commit by commit, and end in a sealed database holding the books of the last |
| Recording.SeededRunIsRecorded | app/seed.py:170-199 | The same from an unused database, with the opening entry of the seed first |
| JournalGuards.Database.GuardPostingMutation | alembic/versions/0002_durable_payout_and_ledger_guards.py:78-91 | Raises exactly when the new journal, or the old one of a deletion, is posted |
| JournalGuards.Database.GuardJournalMutation | alembic/versions/0002_durable_payout_and_ledger_guards.py:98-122 | Only an open journal may change, and only by being posted |
| JournalGuards.Database.CheckPostedJournal | alembic/versions/0002_durable_payout_and_ledger_guards.py:129-157 | Passes exactly when the journal is not open, has at least two postings and balances in every currency |
| JournalGuards.Database.CommitAll | alembic/versions/0002_durable_payout_and_ledger_guards.py:159-163 | Commits exactly when every inserted journal passes; otherwise everything is rolled back |
| Locks.NeverDeadlocked | app/ledger.py:43-51 | In every reachable state, with any number of transactions, the waits-for graph has no cycle |
| Locks.AllFinish | app/service.py:288-292 | From every orderly state a schedule grants every request and finishes every transaction without cancelling one |
| Locks.RequestsAscend | app/service.py:360-371 | Every blocking transaction asks for key entry, settlement, attempt, accounts by ascending id, event entry in increasing rank |
| Locks.DecidersExclude | app/service.py:192-371 | In every reachable lock state no two transactions have the row by which they decide about the same settlement, nor its attempt, nor the same account, the system's included, nor the entry of the same key, event or operation |
| Locks.BatchExcludes | app/service.py:288-292 | Nobody else decides about a settlement whose row the background has locked |
| Fingerprint.FingerprintIdentifies | app/schemas.py:17-21 | Two canonical request strings are equal if and only if owner, amount value and currency are, even when the owner contains the separator |
| Fingerprint.ScientificStringInjective | app/schemas.py:18-20 | The printed form of a decimal determines its coefficient and exponent |
| Fingerprint.NormalizeIffEqual | app/schemas.py:18-20 | Two amounts normalize alike if and only if they are numerically equal |
| Fingerprint.PrintedRequest | app/schemas.py:17-21 | A hundred dollars, however written, gives the string of owner, 1E+2 and target in this order |
| Fingerprint.PrintedFractions | app/schemas.py:18-20 | How fractions, small and large numbers are printed |
| Routing.CollapsedEdges | app/routing.py:78-89 | Fails exactly on an invalid rate; otherwise one edge per pair, the greatest rate and then the least provider, in the order of pairs |
| Routing.ComputeRoutes | app/routing.py:107-135 | With the early exit, returns what all the rounds and the extra relaxation decide |
| Routing.FixpointStays | app/routing.py:116-120 | A round that changes nothing is the last |
| Walks.RelaxIsRelaxed | app/routing.py:92-104 | A relaxation holds, for every currency, the best of the old candidate and all one-edge extensions |
| Walks.RoutesDominateAllWalks | app/routing.py:116-136 | For any monotone multiplication: the stored hops are a walk that folds to the stored rate, which is at least that of every walk, cyclic or over discarded edges |
| Walks.RoundedIsMonotone | app/decimal_policy.py:4-9 | Products rounded by any monotone rounding are such a multiplication |
| Walks.RoutesDependOnEdgeSet | app/routing.py:72-104 | Any permutation or duplication of the edges gives the same result |
| BoundedWalks.RejectedIffLongWalkGains | app/routing.py:116-127 | For every monotone multiplication a graph of valid rates is rejected if and only if some walk of five hops over the original edges is worth more than every walk of at most four hops to the same currency |
| BoundedWalks.RoundsDominate | app/routing.py:116-120 | n rounds dominate every walk of at most n hops over the original edges |
| BoundedWalks.AgreementCarriesOver | app/routing.py:107-136 | Where another multiplication agrees with the exact one on all walks of at most five hops, the result is that of the exact products |
| ExactRoutes.RejectedIffArbitrage | app/routing.py:107-127 | With exact rates a graph is rejected if and only if a closed walk reachable from the source multiplies to more than one |
| ExactRoutes.PublishedRoutesAreBest | app/routing.py:116-136 | Each route is a simple path of at most four hops, of greatest product, and least in (source, target, lp) order among those, neutral cycles or not |
| Ties.TiesGoByName | app/routing.py:68-75 | Against every other simple path of the same product, at the first hop at which they differ the published route has the source that is alphabetically first, else the target, else the provider whose name comes first by code points |
| Ties.ContextTiesGoByName | app/routing.py:68-75 | The same of the program's own 38-digit arithmetic, for rates of at most seven digits |
| ExactRoutes.RoundsOptimal | app/routing.py:116-120 | After n rounds each entry is the best walk of at most n hops |
| RateFeed.FeedOffers | app/routing.py:146-180 | The generated edges are valid and are exactly the offers at the three factors of the anchor ratios |
| FeedQuotes.FirstAnchors | app/routing.py:147-168 | The anchors of version one, in numbers |
| FeedQuotes.AnchorsGoRound | app/routing.py:161-168 | The anchors repeat every seven versions, and over any seven they average their references |
| FeedQuotes.FeedRatesFromUsd | app/routing.py:161-180 | In the program's own arithmetic every direct rate from the dollar lies between 0.9 and 55.2 |
| FeedQuotes.EveryAmountIsQuotable | app/service.py:86-87 | Every amount an account can hold, of twenty-four digits, can be quoted and stored at every published rate of the feed |
| RateFeed.WalkAgainstAnchor | app/routing.py:161-180 | A walk of k hops earns at most the anchor ratio times 0.999 to the k |
| RateFeed.FeedRoutesAreDirect | app/routing.py:146-180 | Every version is accepted and each route is the direct LP_A hop at its exact rate |
| RoundedFeed.RoundedFeedIsDirect | app/routing.py:183-184 | The same under any arithmetic whose results are within one part in ten thousand over the range of the feed |
| RoundedFeed.RoundingIsNear | app/routing.py:174-180 | A division and a product, each rounded within one part in a hundred thousand, give such a feed and such products |
| Decimals.FittingStays | app/decimal_policy.py:4 | A number of at most that many digits is kept by a context as it is |
| Decimals.RoundingTwice | app/decimal_policy.py:4 | Rounding twice is rounding once |
| Decimals.HalfEvenIsNearest | app/decimal_policy.py:4 | A whole number is the rounding of x if and only if it is nearest to x, and even where two are |
| Decimals.RoundsToNearest | app/decimal_policy.py:4 | A positive number rounds to the nearest multiple of its last kept digit, the even one of two |
| Decimals.OneDigitMore | app/decimal_policy.py:4 | The greatest whole number of so many digits is kept, and the second of one digit more is rounded |
| ContextRoutes.ContextHas38Digits | app/decimal_policy.py:4 | The context keeps whole numbers of 38 digits and rounds one of 39 |
| ContextRoutes.ContextRounds | app/decimal_policy.py:4 | Rounding to 38 digits, half to even, is monotone and closer than the feed needs |
| ContextRoutes.ContextIsMonotone | app/decimal_policy.py:4-9 | Products in the context are a monotone multiplication, so the domination of all walks covers the program's own arithmetic |
| ContextRoutes.ContextRejectedIff | app/routing.py:107-127 | In its own arithmetic the program rejects a graph if and only if some walk of five hops over the original edges is worth more than every walk of at most four hops to the same currency |
| ContextRoutes.ShortRatesAreExact | app/routing.py:107-136 | With rates of at most seven digits the program rejects if and only if a reachable cycle multiplies to more than one, and otherwise publishes the canonical best routes at their exact products |
| ContextRoutes.ContextMissesArbitrage | app/routing.py:122-127 | A graph with a cycle of exact product above one that the program accepts, because the gain is below its last digit |
| ContextRoutes.ContextFeedIsDirect | app/routing.py:138-184 | Generated and routed in the context, every version is accepted and each route is the direct LP_A hop at that hop's own rate, the rounded quotient of the anchors times 0.999, rounded |
| RateBooks.RateBook.Publish | app/routing.py:198-201 | A rejected graph leaves the published snapshot in place |
| RateBooks.RateBook.Quote | app/routing.py:203-206 | Answers the published route, or that there is none |
| RateBooks.RateBook.Run | app/routing.py:223-228 | The publishing loop never stops on an invalid graph, and each snapshot is determined by its version |
| RateBooks.StartAndRun | app/routing.py:208-228 | Started with the first version in the program's own arithmetic, the publishing loop never fails, and after any number of passes every route is the direct LP_A hop at that hop's rate |

## Left out

- SHA-256: taken as injective, so the canonical string stands for the fingerprint.
- Identifiers: UUIDs are fresh natural numbers, a journal is its place in the order of insertion, and an account is its
  unique (owner, currency, purpose); `JournalGuards` and `Locks` take row identifiers as given.
- The clock: one instant per transaction, and it never goes backwards.
- Service.SettlementTables.Insert: the ambient decimal context is taken to be the default of 28 digits, half to even; a
  rate or quoted amount too wide for its column and one that is not positive are the same constraint error.
- ContextRoutes.ContextFeedIsDirect: the anchors of the feed have few digits and are taken exact; the limits of the
  decimal exponent are not modelled.
- ExactRoutes.RejectedIffArbitrage: it speaks of exact products; `ContextRoutes` carries it to the program's context.
- Endings.CanEndExactly: a script kept in memory needs money for the settlements that use up its positions; without that
  money only the direction from stuck to never ending is proved.
- JournalGuards.CommittedJournalsAreFinal: one transaction at a time and one row per statement; TRUNCATE, superusers and
  the foreign keys to settlements and accounts are not part of it.
- JournalGuards.Database.CheckPostedJournal: the aggregates of the query are computed by a loop.
- Seed.SeedDemoAccounts: the advisory lock, which only orders concurrent seeds.
- Locks.NeverDeadlocked: foreign-key share locks are taken on rows the same transaction already holds, so they add no waits
  and are not listed.
- The claim of a settlement without an attempt row covers rows from before the attempts table; no run from an initial
  state reaches it.
- Outcomes.TwentyPayouts: the payouts take consecutive positions; where the database sequence skips positions, the shares
  hold of the positions and not of the payouts.
- Provider.DurablePayoutProvider.Initiate: how often and how far the identity column skips is the environment's choice.
- Web routes, sessions, migrations other than the guards, task start and stop, sleeps and logging.
