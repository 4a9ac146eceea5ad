# Payment engine: a verified model

The payment engine is a double-entry ledger in PostgreSQL with five kinds of transactions working on
the same rows: the two transactions of a payment creation (around a call to the payment provider),
webhooks, refunds, the expiry of stale holds, and the relay of the transactional outbox. Each
service is short. What makes the money safe is how they fit together, and that is what is proved
here, over every run, for any number of actors and any crashes.

The model has two layers.

**Rows and statements.** `Session` and `LedgerService` are the tables and the posting loop as one open
transaction changes them in place; the other services (`Services`, `Relay`) work on the same session.
Every method is proved to do what a function of the old tables says (`Ledger`, `Rules`), and `Effects`
says what those functions mean: when they succeed and what they leave behind.
`Concurrency` runs any number of transactions statement by statement against a lock table, with
private copies of the locked rows and with the unique keys of claims, webhook events and balance rows;
`Serializability`, `Deadlock`, `Progress`, `ClaimKeys` and `Verdicts` prove what the locking is for; `Oversell`,
`MissingRows`, `Rivals` and `LostInserts` count concurrent debits, and `RefundRaces` adds the refunded totals of
payments. `RelayRaces` does the same for relays that skip each other's locked rows.

**Committed transactions.** `System` runs the committed transactions of all actors in any order:
`Create` and `Finish` are the two transactions of a create call, `Crash` means that the second never
happens, `Deliver` is a webhook, `Refunding` a refund, `Sweep` an expiry run, `Drain` a relay commit. The
environment picks every parameter. An exception is a full rollback. `Invariant` says what holds after every
commit; `Moves` and `SystemProof` prove that every step keeps it; `History`, `Solvency`, `Accounting`,
`Expiry` and `Webhooks` draw the consequences, and `Steps` says what each step does without naming the function
that computes it.

| file | content |
|---|---|
| `Domain`, `Wrappers`, `Sequences` | entities, errors, `Option` and `Result`, lists of row numbers |
| `Ledger`, `LedgerLemmas`, `Journal` | one `post`: meaning, success condition, journal and audit sums |
| `Sessions`, `Services`, `Relay` | the services as classes that change a session in place |
| `Rules`, `Effects`, `System` | each committed transaction as a function; when it succeeds and what it does; the state machine of all actors |
| `Invariant`, `Moves`, `SystemProof` | the invariant and its preservation by every step |
| `History`, `Solvency`, `Accounting`, `Expiry`, `Webhooks`, `Steps` | theorems over whole runs |
| `Concurrency`, `Serializability`, `Deadlock`, `Progress`, `ClaimKeys`, `Verdicts` | row locks and unique keys, statement by statement |
| `Oversell`, `MissingRows`, `Rivals`, `LostInserts`, `RefundRaces` | how many concurrent debits and refunds go through |
| `RelayRaces` | concurrent relays |

Conventions. A generated UUID is the row number its row gets (fresh by construction), and an account
id is a natural number; `PaymentRef` and `RefundRef` keep the ids of payments and refunds apart. `opening`
is the balance table before the first transaction: the code has no funding transaction, so money enters only
there (`load/seed.sql:16-18`). Two requests are equal exactly when their hashes are.

## Where the code falls short of its tests, documentation or promises

- `settle` and `reverse` do not look at the payment's status (`app/application/payment_saga.py:51-118`).
  They are safe because of their callers: only the call that created a payment touches it while it is
  PROCESSING, and webhooks and expiry touch only AUTHORIZED ones. `SystemProof` proves that this discipline
  holds and `History.ClosedAtMostOnce` what follows from it.
- The request schema accepts the suspense account as payer (`app/application/schemas.py:8-13`).
  Then suspense can spend the money behind another hold: `Solvency.SuspensePayerStrandsAnotherHold`
  is a concrete run. `Solvency.RunSolventIff` gives the exact guard: a run is solvent at every step if and
  only if each hold paid by suspense, and each refund of a payment to suspense, is covered by what suspense has
  beyond the outstanding holds. `Solvency.GuardedRunsAreSolvent` says that refusing such payers is enough, and
  `Expiry.SweepSucceedsIff` when an expiry run fails as a whole because one hold is not covered.
- `post` inserts a missing balance row. Two concurrent inserts of one row make the second fail on its primary
  key, and a payment that could have been made is lost. `LostInserts.LostDebits` gives a schedule that loses as
  many debits as can be lost, and `LostInserts.ExactIff` says exactly when all affordable debits commit in every
  schedule. Holds are safe: the row of suspense is seeded (`Rivals.HoldsAreExact`).
- `docs/HLD.md:96` promises to resolve payments that are stuck in PROCESSING. The code never does: when transaction 2
  of a create call does not commit, the payment stays PROCESSING, its amount stays in suspense, and every retry
  is refused, whatever happens later (`History.DeadCallsAreStuck`).
- A webhook that is refused is rolled back together with its event id. A later delivery under the same id but with
  other content is then handled. `Webhooks.ListIff` gives the exact condition under which a list of deliveries
  equals its first delivery per id, `Webhooks.ReusedIdAfterRefusal` a reachable state where it does not,
  and `Webhooks.ReusedIdsDoNothing` the states where ids can be reused at will.
- The reconciliation test expects a balanced report on seeded accounts (`tests/test_reconciliation.py:17-20`). The
  code reports every account seeded with money as drifted, for ever (`Accounting.AuditIsInvariant`); a
  balanced report means that there is no money at all (`Accounting.BalancedMeansEmpty`). The model follows the code.
- The concurrency test catches InsufficientFunds inside its transaction (`tests/test_concurrency.py:35-39`). The
  services never do that; the model rolls back.
- Compare-and-set status updates, FUNDS_LOCKED, fee postings, PARTIALLY_REFUNDED, claim release and
  consumer-side deduplication appear in documents only and are not modelled. REFUND_PENDING is in the code's
  refund guard and in the model, and proved unreachable.

## Model

| member | source | states |
|---|---|---|
| Ledger.FirstBad | app/application/ledger_service.py:31-34 | the posting whose amount is reported is the first non-positive one, none before it is |
| Ledger.SortedAccounts | app/application/ledger_service.py:63 | the lock list is strictly ascending and holds exactly the accounts posted to |
| Sessions.LedgerService.ValidateBalanced | app/application/ledger_service.py:26-41 | accepts a list exactly when it has two postings or more, all positive, and debits equal credits; otherwise, in code order, imbalance 0, the amount of the first non-positive posting, or the net |
| Sessions.LedgerService.LockBalances | app/application/ledger_service.py:62-76 | locks the balance rows in strictly ascending account order, each once, and succeeds exactly when every account exists; then exactly the missing rows were added, at zero |
| Sessions.LedgerService.ApplyPostings | app/application/ledger_service.py:78-105 | on success balances and entries are those of the posting list in order; on failure the error of the first posting that overdraws |
| Sessions.LedgerService.Post | app/application/ledger_service.py:43-106 | the whole posting changes the ledger tables as `Ledger.Post` says, or raises the same error, and takes its row locks in ascending order |
| LedgerLemmas.ApplyClosedForm | app/application/ledger_service.py:78-103 | every account ends at start + credits - debits, its version raised by its number of postings; no other row appears |
| LedgerLemmas.ApplySucceedsIff | app/application/ledger_service.py:91-98 | the non-negative guard lets a list through exactly when no prefix overdraws any account, and balances stay non-negative |
| LedgerLemmas.ApplyStopsAtFirstError | app/application/ledger_service.py:79-98 | a failing prefix decides the result of the whole list |
| LedgerLemmas.PostSucceedsIff | app/application/ledger_service.py:43-106 | exact success condition of `post`: valid, balanced, accounts known, no prefix overdraws |
| LedgerLemmas.PostEffect | app/application/ledger_service.py:43-106 | the whole new ledger state: one transaction row, one entry per posting, each balance and version, nothing else |
| LedgerLemmas.PostKeepsNonNegative | app/domain/models.py:72-74 | a successful posting keeps every balance non-negative, as the check constraint demands |
| LedgerLemmas.PostTransfer | app/application/payment_saga.py:29-33 | a two-posting move succeeds exactly for a positive amount the debited account covers, also when both accounts are one |
| LedgerLemmas.TransferRefused | app/application/ledger_service.py:31-97 | and otherwise raises, first reason first: a non-positive amount, an unknown account, or insufficient funds with the balance and the amount |
| LedgerLemmas.ApplyErrorMeaning | app/application/ledger_service.py:91-97 | a list that overdraws raises for its first overdrawing posting, with the account, the balance before it and the amount |
| LedgerLemmas.PostOrderIrrelevant | app/application/ledger_service.py:78-105 | any two successful orders of the same postings leave the same balances and versions |
| Journal.PostJournal | app/application/ledger_service.py:52-88 | a posting adds one journal item with exactly its postings under its own reference and changes no other reference |
| Journal.PostAudit | app/application/ledger_service.py:78-105 | a posting moves each balance by what it adds to the account's computed balance, keeps the deferred trigger true and the global net unchanged |
| Journal.NetsRegroup | alembic/versions/001_initial_schema.py:123-146 | the nets that the deferred trigger checks per transaction sum to the global net |
| Journal.TriggerGivesZeroNet | alembic/versions/001_initial_schema.py:123-146 | if every transaction passes the trigger the ledger nets to zero |
| Journal.PostConserves | app/application/ledger_service.py:78-103 | a posting keeps the sum of all balances |
| Effects.HoldEffect | app/application/payment_saga.py:23-49 | exactly when a hold succeeds, that it leaves one PROCESSING row, its amount in suspense, one journal transaction and one event, and its error otherwise |
| Effects.SettleEffect | app/application/payment_saga.py:51-85 | exactly when a settle succeeds (no status among the conditions), its row, transfer, journal transaction and event, and its error otherwise |
| Effects.ReverseEffect | app/application/payment_saga.py:87-118 | exactly when a reversal succeeds (no status among the conditions), its row, transfer, journal transaction and event, and its error otherwise |
| Effects.RefundEffect | app/application/refund_service.py:32-84 | exactly when a refund succeeds, its refund row, payment row, transfer, journal transaction and event, and its error otherwise |
| Effects.ClaimEffect | app/application/idempotency_service.py:49-80 | a new key gets one IN_PROGRESS record with the request; a used key answers with its stored code and body, or refuses: mismatch for another payload, conflict while in progress |
| Effects.CreateTx1Effect | app/application/payment_service.py:44-65 | transaction 1 commits exactly for a new key, known accounts and a covered positive amount; it then appends a PROCESSING row with the request's terms, no reference, nothing refunded, version 0 and the time of the call, with its hold, event and claim; every other call is answered from the record or raises the stated error |
| Effects.CreateTx2Effect | app/application/payment_service.py:75-114 | captured settles, declined reverses, pending only parks; the claim is completed with the answer returned, whose status is SUCCEEDED, FAILED or AUTHORIZED; it raises exactly when the transfer is refused |
| Effects.RefundTxEffect | app/application/refund_service.py:25-102 | a refund with a new key commits with its rows, transfer, event and completed claim, or raises the first failing guard; with a used key it is answered from the record or refused |
| Moves.HoldKeepsInv | app/application/payment_saga.py:23-49 | a hold keeps the closed form of balances, the audit, the journal shape, refunds and the outbox in step |
| Moves.SettleKeepsInv | app/application/payment_saga.py:51-85 | settling a held payment keeps all of it, whichever of payer, payee and suspense coincide |
| Moves.ReverseKeepsInv | app/application/payment_saga.py:87-118 | reversing a held payment keeps all of it |
| Moves.AuthorizeKeepsInv | app/application/payment_service.py:81-87 | parking a PROCESSING payment as AUTHORIZED keeps all of it |
| Moves.RefundKeepsInv | app/application/refund_service.py:43-84 | a committed refund keeps all of it |
| Moves.StampKeepsInv | app/application/outbox_relay.py:36-41 | publishing any rows keeps all of it |
| SystemProof.FinishKeepsMoney | app/application/payment_service.py:75-97 | transaction 2 of any in-flight call, with any provider answer and after any other steps, keeps the money invariant although settle and reverse check no status |
| SystemProof.HandleKeepsMoney | app/application/webhook_service.py:43-81 | any webhook, decisive or not, refused or not, keeps the money invariant |
| SystemProof.WithReferenceMeaning | app/application/webhook_service.py:60-63 | the lookup finds exactly the payments that store the reference |
| SystemProof.StaleIdsMeaning | app/application/reconciliation_service.py:53-61 | the sweep's query lists exactly the payments with status AUTHORIZED and createdAt before the cutoff, each once, ascending |
| SystemProof.ReverseAllExact | app/application/reconciliation_service.py:63-67 | the loop fails exactly the listed payments and leaves every other row alone |
| SystemProof.ReverseAllKeepsMoney | app/application/reconciliation_service.py:63-67 | every iteration of the loop keeps the invariant |
| SystemProof.CreateKeepsClaims | app/application/idempotency_service.py:57-80 | a create call, fresh, replayed or refused, keeps claims, calls, payments and answers in agreement |
| SystemProof.FinishKeepsClaims | app/application/payment_service.py:89-97 | transaction 2 keeps the agreement: its claim is completed exactly when its payment leaves PROCESSING, with an answer that describes it |
| SystemProof.AnswerKeepsClaims | app/application/idempotency_service.py:76-78 | a replayed answer keeps the agreement: it is the one that the record stores |
| SystemProof.NewRefundKeepsClaims | app/application/refund_service.py:92-100 | a new refund, its completed record and its answer keep the agreement |
| SystemProof.DoKeepsInv | app/application/payment_saga.py:51-118 | every step of every actor keeps the whole invariant |
| SystemProof.ReachableInv | app/application/payment_service.py:37-99 | the invariant holds in every state reachable by any interleaving of all actors and crashes |
| History.DoIsNext | app/application/payment_service.py:77-87 | every step moves each payment along one edge PROCESSING to AUTHORIZED, SUCCEEDED or FAILED, AUTHORIZED to SUCCEEDED or FAILED, SUCCEEDED to REFUNDED; journal, refunds, events and outbox only grow |
| History.HistoryIsKept | app/domain/models.py:90-111 | over any continuation of any run, entries, transactions, refunds, events and completed claims are never changed or removed and statuses only move forward |
| History.ClosedAtMostOnce | app/application/payment_saga.py:51-118 | each reachable journal has for each payment its hold and at most one closing transaction, of the kind the status says; version = closings + refunds; CREATED, FUNDS_LOCKED and REFUND_PENDING are unreachable |
| History.FinalStatuses | app/domain/enums.py:29-37 | FAILED and REFUNDED payments never change status, refunded total or journal again |
| History.ClaimsMatchPayments | app/domain/models.py:181-183 | create claims and payments are in bijection, one hold per (merchant, key), and IN_PROGRESS holds exactly while the payment is PROCESSING |
| History.DeadCallsAreStuck | app/application/payment_service.py:67-99 | once transaction 2 of a create call is not going to commit, its payment stays PROCESSING with its hold in suspense and its key IN_PROGRESS for ever, and every retry raises and changes nothing |
| History.AnswersAgree | app/application/idempotency_service.py:76-78 | all answers ever given under one key are the same, with code 201 |
| History.AnswersDescribePayments | app/application/payment_service.py:89-114 | every answer of a create call carries the terms and reference of the payment of its key, nothing refunded, and an outcome (parked, succeeded, failed) that later steps never contradict |
| History.RetryReplays | app/application/payment_service.py:46-51 | once a key is answered, every later retry of the request, after any other steps, gets that answer and changes no table |
| History.RefundRetryReplays | app/application/refund_service.py:27-30 | once a refund key is answered, every later retry with the same payment and amount, after any other steps, gets that answer and changes no table |
| History.OtherRequestsMismatch | app/application/idempotency_service.py:65-69 | once a key is used, every later create or refund under it with another request raises a mismatch and changes nothing |
| History.RefundKeysMatchRefunds | app/application/refund_service.py:25-30 | refund claims and refund rows are in bijection and each moved its money exactly once |
| Solvency.SolventIff | app/application/payment_saga.py:64-68 | in a reachable state suspense covers all holds exactly when it paid out, as payer, no more than it opened with and received |
| Solvency.StepSolventIff | app/application/payment_saga.py:29-33 | from a solvent state a step keeps suspense solvent if and only if it meets its guard, which names keys, accounts, statuses, amounts and balances before the step; only a hold paid by suspense and a refund of a payment to suspense have one |
| Solvency.RunSolventIff | app/application/payment_saga.py:29-33 | a run is solvent at every step if and only if each of its holds and refunds meets its guard |
| Solvency.SuspenseCovers | app/application/payment_saga.py:99-103 | without a suspense payer suspense covers all holds together, and beyond them what any payment to suspense may be refunded |
| Solvency.GuardedRunsMeetGuards | app/application/schemas.py:8-13 | refusing suspense as payer of new payments meets every guard of every run |
| Solvency.HeldCanClose | app/application/payment_saga.py:51-118 | in a solvent state no settle or reverse of a held payment raises |
| Solvency.ExpirySucceeds | app/application/reconciliation_service.py:50-69 | in a solvent state no iteration of the expiry loop raises |
| Solvency.HandleSucceeds | app/application/webhook_service.py:43-81 | in a solvent state a webhook raises exactly on a reference stored twice |
| Solvency.SolventRunsNeverRaise | app/application/payment_service.py:75-87 | after every run that meets its guards, transaction 2 of every in-flight call commits whatever the provider said, sweeps never raise, and a webhook raises exactly on an ambiguous reference |
| Solvency.GuardedRunsAreSolvent | app/application/payment_service.py:75-87 | hence every run without a suspense payer is solvent at every step and never raises in transaction 2 or in a sweep |
| Solvency.SuspensePayerStrandsAnotherHold | app/application/schemas.py:8-13 | a concrete run with a suspense payer after which another payment can neither settle nor be reversed |
| Accounting.BalancesAreClosedForm | app/application/payment_saga.py:23-118 | every balance of every reachable state is opening + received - paid + held, read off the payments table |
| Accounting.MoneyIsConserved | app/application/ledger_service.py:78-103 | the sum of all balances is constant over every run and bounds each balance |
| Accounting.NoMoneyColumnOverflows | app/domain/models.py:61-62 | an opening total below 2^63 keeps every balance, amount, refunded total and entry within BIGINT |
| Accounting.EntryBounded | app/domain/models.py:101-109 | every entry's amount is positive and at most the largest payment |
| Accounting.AuditIsInvariant | app/application/reconciliation_service.py:20-48 | over every run the report is ledgerNet 0 and counts as drifted exactly the accounts seeded with money; every transaction passes the trigger; version counts entries |
| Accounting.AuditMeaning | app/application/reconciliation_service.py:18-48 | for any books the report's net is all debits less all credits, its count the balance rows that differ from the credits less the debits of their account, and balanced says that both are zero |
| Accounting.BalancedMeansEmpty | app/application/reconciliation_service.py:43-48 | a balanced report in any reachable state means that every balance is 0 |
| Accounting.RefundsAddUp | app/application/refund_service.py:58-70 | refunded total = sum of refund rows = debits posted under those refunds, within the amount, equal to it exactly when REFUNDED |
| Accounting.RefundSucceedsIff | app/application/refund_service.py:36-70 | a fresh refund is paid exactly for a SUCCEEDED payment, a positive amount within what is left, and a payee that has it |
| Accounting.OutboxIsFaithful | app/application/payment_saga.py:36-48 | one processing event per payment, one closing event per closed hold, one event per refund, nothing else; folding the rows gives every payment's stage, amount and refunded total |
| Accounting.OutboxDeterminesMoney | app/application/payment_saga.py:70-116 | opening balances, the outbox and the parties of each payment determine every balance |
| Expiry.SweepIsExact | app/application/reconciliation_service.py:50-69 | a sweep fails exactly the payments with status AUTHORIZED and createdAt before the cutoff and leaves every other row as it was, counts them, returns each payer its sum out of suspense, writes one reversal and one event per hold, leaves refunds, claims and webhook events alone, and finds nothing when repeated |
| Expiry.SweepSucceedsIff | app/application/reconciliation_service.py:63-67 | a sweep raises exactly when some stale hold is not covered by what suspense has left at its turn |
| Steps.EveryStepIsExact | app/application/payment_service.py:37-99 | every step of every run does exactly what its action calls for, said on the tables: which create, refund, webhook, sweep or provider answer commits, what it writes and replies, and that all others change nothing |
| Webhooks.ReceiveHasEffect | app/application/webhook_service.py:43-81 | one delivery changes nothing if inert; else its id is recorded and at most the one waiting payment is closed as the event says, every other payment row unchanged |
| Webhooks.ReceiveMovesMoney | app/application/webhook_service.py:59-81 | the rest of what one delivery changes: the transfer out of suspense, its journal transaction, the payment row and the event of a closed payment, and no other table |
| Webhooks.HandleEffect | app/application/webhook_service.py:43-81 | exactly when a webhook raises, and that it otherwise does nothing, records its id, or records it and settles or reverses the one waiting payment |
| Webhooks.KindsDecide | app/application/webhook_service.py:65-81 | for a new id whose reference names one waiting, covered payment: each of the four capture types settles it, each of the three fail types reverses it, any other type records the id only |
| Webhooks.NothingWaits | app/application/webhook_service.py:43-63 | a recorded id changes nothing; without a reference, or without a waiting payment that stores it, only the id is recorded; a reference stored on several payments raises |
| Webhooks.InertStays | app/application/webhook_service.py:43-47 | a delivery without effect now has none after any other delivery |
| Webhooks.ListIff | app/application/webhook_service.py:43-81 | any list of deliveries, with ids reused for any content, equals its first delivery per event id if and only if no later delivery of an id takes effect |
| Webhooks.DuplicatesDoNothing | app/application/webhook_service.py:43-56 | hence any list whose ids name one event each equals its first delivery per id |
| Webhooks.TwoDeliveries | app/application/webhook_service.py:43-63 | hence two deliveries under one id, with any content, equal the first alone exactly when the first took effect or the second cannot |
| Webhooks.ReusedIdAfterRefusal | app/application/webhook_service.py:49-81 | a reachable state where a refused delivery leaves its id free and a second one takes effect |
| Webhooks.ReusedIdsDoNothing | app/application/webhook_service.py:43-56 | hence, from a solvent state with unique references, any list equals its first delivery per id |
| Webhooks.FirstDecisiveWins | app/application/webhook_service.py:59-81 | a waiting payment ends as the first fresh capture or fail event for its reference says, read off the list alone, however many follow |
| Serializability.ApplyLocally | app/application/ledger_service.py:65-103 | posting against private copies of the locked rows gives the posting against the committed table |
| Serializability.ExecKeepsInv | app/application/ledger_service.py:62-106 | after any interleaving each lock has one owner and each locked row's copy is the committed row with the owner's own postings applied |
| Serializability.InterleavingIsSerial | app/application/ledger_service.py:62-106 | any interleaving of any transactions, with crashes, leaves exactly the tables of posting the committed ones one at a time in commit order |
| Serializability.InterleavingConserves | app/application/ledger_service.py:78-103 | no interleaving, with any crashes, changes the sum of all balances |
| Serializability.FailureIsSerial | app/application/ledger_service.py:91-97 | after any interleaving, a transaction that raises would have raised the same error alone at that moment |
| Deadlock.WantsRise | app/application/ledger_service.py:62-76 | along a wait the wanted lock rises in the order key, payment row, ascending balances, claim row |
| Deadlock.NoWaitCycle | app/application/refund_service.py:27-33 | the wait-for graph of every reachable state is acyclic, with the claim row completed last and with webhooks that lock several payment rows before they raise |
| Deadlock.NeverStuck | app/application/webhook_service.py:43-63 | while any transaction is unfinished, ambiguous webhooks included, some transaction can execute a statement |
| Progress.CanFinish | app/application/ledger_service.py:62-106 | from every reachable state all unfinished transactions can be run to their ends without a crash |
| ClaimKeys.KeyCommitsOnce | app/domain/models.py:181-183 | statement by statement, with any crashes: of all transactions that insert one claim key or event id at most one commits, none if the key was there, and one answered instead met a committed key |
| Verdicts.EndsHaveReasons | app/application/ledger_service.py:62-106 | after any interleaving each rolled back transaction has its reason: its key was committed, its reference matched several payments, a row it inserted appeared meanwhile, posting alone raised its error at some moment, or it crashed |
| Verdicts.LoneCommitsIff | app/application/ledger_service.py:43-106 | without rivals a transaction commits exactly when its key is new, at most one payment matches and its posting succeeds, and leaves the tables of that posting |
| Oversell.NoOversell | tests/test_concurrency.py:12-49 | n concurrent debits of d from balance B, in every interleaving with any crashes, keys and missing rows: exactly min(n - lost, B div d) commit, lost being those stopped by anything but a lack of funds, and B - d * that many is left |
| Rivals.DebitsCommitted | app/application/ledger_service.py:65-76 | debits as the services post them, each with a new key: exactly min(n - crashed - violated, B div d) commit, where at most width - 1 lose the insert of a missing row, none if the row is there or locked second; width counts the payment rows they lock, and each debit without one |
| Rivals.SafeDebits | app/application/ledger_service.py:65-76 | if the credited account has a row, or is locked after the debited one, or no debit is affordable, or all take turns on one payment row, exactly min(n - crashed, B div d) commit |
| Rivals.HoldsAreExact | alembic/versions/001_initial_schema.py:156-161 | n concurrent holds of d by one payer, each with a new claim key: the seeded row of suspense makes it exactly min(n - crashed, B div d) |
| LostInserts.LostDebits | app/application/ledger_service.py:66-75 | if the row is missing, locked first, and a debit is affordable: a crashless schedule of all debits, with their keys, payment and claim rows, in which width - 1 of them lose the insert |
| LostInserts.ExactIff | app/application/ledger_service.py:65-76 | such debits commit exactly min(n, B div d) times in every crashless schedule if and only if the row is there, or is locked second, or width <= 1, or B div d <= n - width + 1 |
| RefundRaces.NoOverRefund | app/application/refund_service.py:32-66 | no interleaving of refunds and other transactions, with any crashes, loses an update of a refunded total or refunds more than the amount: each total is what it was plus the refunds that committed |
| RefundRaces.RefusedRightly | app/application/refund_service.py:41-45 | in every interleaving, a refund refused for its amount does exceed what is left of the payment, then and ever after |
| Services.PaymentSaga.Hold | app/application/payment_saga.py:23-49 | in place: `Rules.Hold` or its error, and what Effects.HoldEffect says of a success |
| Services.PaymentSaga.Settle | app/application/payment_saga.py:51-85 | in place: `Rules.Settle` or its error, and what Effects.SettleEffect says of a success |
| Services.PaymentSaga.Reverse | app/application/payment_saga.py:87-118 | in place: `Rules.Reverse` or its error, and what Effects.ReverseEffect says of a success |
| Services.IdempotencyService.ClaimOrReplay | app/application/idempotency_service.py:29-80 | claims exactly a key that is not there, by one new IN_PROGRESS record; else mismatch, conflict or the stored answer, each under its exact condition, and no table changes |
| Services.IdempotencyService.Complete | app/application/idempotency_service.py:82-102 | stores the answer on the record of the key and changes no other record and no other table |
| Services.PaymentService.CreateTx1 | app/application/payment_service.py:44-65 | in place what Effects.CreateTx1Effect says, or a replayed answer or an exception with every table as before; all row locks released |
| Services.PaymentService.CreateTx2 | app/application/payment_service.py:75-114 | in place what Effects.CreateTx2Effect says for each provider answer, with code 201 and the answer it stores, or an exception with every table as before; all row locks released |
| Services.WebhookService.Handle | app/application/webhook_service.py:43-81 | in place: `Rules.Handle` or its error, and what Webhooks.HandleEffect says of a success |
| Services.Endpoints.PostWebhook | app/api/webhooks.py:32-33 | the webhook transaction commits or leaves every table as before |
| Services.RefundService.Check | app/application/refund_service.py:32-45 | lets a refund through exactly for a SUCCEEDED (or REFUND_PENDING) payment and an amount within what is left; else the first reason in code order |
| Services.RefundService.Move | app/application/refund_service.py:32-84 | in place: `Rules.RefundMove` or its error, and what Effects.RefundEffect says of a success |
| Services.RefundService.Refund | app/application/refund_service.py:18-102 | in place what Effects.RefundTxEffect says: a refund with its 201 answer, the stored answer without any change for a used key, or the stated error |
| Services.Endpoints.PostRefund | app/api/refunds.py:26-31 | the same as one transaction: commit, or the stored answer or an error with every table as before |
| Services.ReconciliationService.ExpireStaleHolds | app/application/reconciliation_service.py:50-69 | the loop fails exactly the payments with status AUTHORIZED and createdAt before the cutoff, changes no other payment row and returns their number, or the error of the first reversal that fails |
| Services.ErrorStops | app/application/reconciliation_service.py:63-67 | the error of the first failing iteration is the result of the whole sweep |
| Relay.EarliestIsLegal | app/application/outbox_relay.py:24-32 | the query's answer for a lone relay: distinct unpublished rows, oldest first, at most the limit, none left older, all of them if fewer than the limit |
| Relay.OutboxRelay.DrainBatch | app/application/outbox_relay.py:21-43 | hands out a legal batch in order, stamps exactly those rows and returns their number |
| Relay.RelayedStep | app/application/outbox_relay.py:21-43 | one more drain keeps the lone-relay guarantee: every row once, in created_at order over all drains, min(n, 50 k) of n rows after k drains |
| Relay.OutboxRelay.RunLoop | app/application/outbox_relay.py:45-57 | through any sequence of drains that commit, drains that raise and are retried, a cancellation or a stop, the loop meets the lone-relay guarantee for the drains that committed, and all n unpublished rows are published once 50 k reaches n; the running flag stays set exactly when it was cancelled |
| RelayRaces.RelaysAreSafe | app/application/outbox_relay.py:21-43 | over every run of any number of relays, with deaths before commit: open batches are disjoint, no row is stamped twice, every stamped row was handed out |
| RelayRaces.StampsAreForever | app/application/outbox_relay.py:36-41 | a stamp is never taken back and no row is lost or rewritten |
| RelayRaces.DrainCompletes | app/application/outbox_relay.py:21-43 | amid any other open drains, a drain that is not cut off hands out and stamps exactly its batch and leaves the others alone |
| RelayRaces.RowsAreRecoverable | app/application/outbox_relay.py:27-32 | from every state, if all open drains die, one more drain publishes every row that was left |

## Left out

- Signature checks, JSON parsing and hashing: a webhook starts as a verified triple (event id, type, reference), and an event without an id is given a fresh one by the environment.
- The Redis lock: its result is ignored (`app/application/idempotency_service.py:46-47`), so it cannot change an outcome.
- The provider clients: `authorize` is an arbitrary outcome, or a crash.
- HTTP routers, schemas, wiring, metrics and configuration, except that each endpoint runs its service in one transaction.
- Read-only endpoints (`get_payment`, accounts): they change nothing.
- Wall-clock time: `created_at` values and cutoffs are arbitrary integers; `updated_at` columns are not modelled.
- Eventual settlement: a webhook that arrives before transaction 2 stores the reference is recorded and never acted on, so only safety is claimed.
- `expire_stale_holds` in the lock-level machine: it posts several times in one transaction, so its lock order does not ascend and deadlock freedom is not claimed for it.
- Concurrency at the level of statements covers the ledger tables, the unique keys and the refunded totals; statuses and completed claims appear there as locks only, and their contents in the layer of committed transactions.
- Transactions that post nothing (a PENDING answer, an ignored webhook) are not run in the lock-level machine; their locks are a part of those of the transactions that do. A webhook whose reference is stored on several payments is run: it locks all of them in row order, taken to be the order of the scan, and raises.
- LostInserts.ExactIff: the debits' keys are new and pairwise different, and none locks several payment rows; for any other transactions Oversell.NoOversell has the count, with those that stop counted as lost.
- Webhooks.FirstDecisiveWins: assumes a solvent state with unique references; otherwise deliveries can be refused, and Webhooks.HandleEffect says when.
- Webhooks.DuplicatesDoNothing: assumes that an event id names one event; Webhooks.ListIff has the general case.
- Relay.OutboxRelay.DrainBatch: rows with equal `created_at` come in insertion order here; RelayRaces.RelaysAreSafe allows any order among them.
- Relay.OutboxRelay.RunLoop: what happens to each drain, and when another task stops the loop, comes from the environment; sleeping is not modelled, and no rows are inserted meanwhile.
- Services.RunExpiry: no endpoint or scheduler of the repository calls `expire_stale_holds`; the model runs it in one transaction of its own.
- Unique keys on accounts, foreign-key cascades, column lengths and the downgrade migration.
- `scripts/daily_push.py`: git automation.
