# Verified model of the payment settlement pipeline

The gateway takes a payment request, waits for a matching payment on the
Stellar ledger, confirms, fails or expires it, and tells a merchant's endpoint
about it. This project models that pipeline in Dafny and proves what it
promises:

* **The settlement machine** (`Settlement*.dfy`). Any number of reconciliation
  workers, creation requests and service transitions over the constrained
  Postgres tables. Every actor is a program counter; one step is one table
  operation, one ledger query or one enqueue, and anything may happen between
  two steps. Workers act on snapshots as stale as the schedule makes them.
  Writes may be refused, and may take effect while their reply is lost.
  `SettlementDelivery.dfy` runs it jointly with the outbox machine, on one clock.
* **The in-place reconciliation pass** (`ReconciliationWorker.dfy`), a class
  over the in-memory repository, proved equal to a pure step applied payment by
  payment, and tied to the machine (`ReconciliationRefinement.dfy`).
* **The two payment repositories** (`PaymentRepository.dfy`, a class over maps;
  `PaymentTable.dfy`, the two tables with their constraints), the service over
  either (`PaymentService.dfy`), what it promises its callers
  (`PaymentServiceProperties.dfy`), the calls, listings and runs on which the
  two agree (`RepositorySimulation.dfy`, `RepositoryListing.dfy`,
  `RepositoryRuns.dfy`), and calls on which they do not
  (`RepositoryDisagreements.dfy`).
* **The webhook outbox** (`Outbox*.dfy`, `Webhook*.dfy`, `Backoff.dfy`): one
  delivery loop interleaved with enqueues and answers of every kind, and the
  repository and service as classes.
* **The ledger search** (`Horizon.dfy`): the one-page scan against the newest
  match, and against the in-memory client's list search.
* **Amounts** (`Decimals.dfy`, `Powers.dfy`, `Amounts.dfy`, `AmountTexts.dfy`):
  parsing, printing, normalising, matching, which texts are accepted, and the
  trip through `NUMERIC(20, 7)`.
* **Pagination** (`Pagination.dfy`) with its 32-bit offsets.

`dafny verify dfyconfig.toml` checks everything.

## What the code does that its documentation does not say

* `docs/api.md:46-48` says a repeated request with the same key returns the
  original payment. Of two requests that both look the key up before either
  inserts, the second is told its *reference* is a duplicate, although no
  stored payment has that reference (`RacingRequestIsNotReplayed`). Over
  any run from a request's lookup to its insert, it happens exactly when the key
  was stored in between (`RefusedAsDuplicateIffKeyRaced`); a request replays exactly when the
  key is stored at its own lookup (`LookupReplaysIffKeyStored`), and a later one
  exactly when its own amount validates, since that is checked first
  (`RetryReplays`).
* `docs/architecture.md:81` says each transition enqueues a webhook. A worker
  drops an enqueue that fails, an update whose reply is lost is never announced
  (`LostTransitionIsNeverAnnounced`), and the service's transitions enqueue
  nothing; `EventsAccountForTransitions` gives the balance.
* With two workers a payment's confirmation may be enqueued before its
  detection (`TwoWorkersMayReverseEvents`). It happens exactly when a worker
  enqueues the later event while another still holds the detection's
  (`EventsFollowHistoryIffNoOvertaking`); the deployment starts one worker
  (`crates/api/src/startup.rs:90-95`), and one never overtakes itself.
* A listing sorts events by creation time alone: it shows them in the order of
  history exactly when the clock moved on between their enqueues
  (`ListingFollowsHistory`). One worker that enqueues both events in one instant
  may be listed backwards (`OneWorkerMayBeListedBackwards`).
* Fifty newer records of any kind in the account's feed hide a match from the
  search (`FiftyNewerRecordsHideAMatch`), and nothing else does
  (`ScanAgreesIffMatchIsRecent`).
* Only the newest match counts: a payment is Detected exactly when that one pays
  its amount (`TurnDetectsIff`). A newer record of another amount under the same
  memo hides one that pays, and the payment stays Pending until it expires
  (`OtherAmountHidesThePayment`).
* A payment offered a hash that another already has is refused by the table, and
  the refusal ends the worker's pass: whatever is listed after that payment goes
  without its turn (`PassIsARun`), on every pass that offers the hash again
  (`SharedHashEndsThePass`).
* The service's own transitions ask the ledger nothing: two calls confirm a
  payment that was never made (`ServiceMayConfirmUnpaid`). A payment's record is
  borne out by the ledger throughout a run exactly when each service call on it
  was at the moment it took effect (`EvidenceIffCallsBornOut`). Nothing but
  tests calls them at this commit.
* An amount of 10^13 or more passes validation; the in-memory repository stores
  it and the column refuses it (`LargeAmountTellsThemApart`). The in-memory
  repository accepts a transaction hash twice, the table does not
  (`ReusedHashTellsThemApart`). Otherwise the two agree (`CallsAgree`,
  `RunsAgreeIff`).
* A page offset beyond 32 bits wraps around (`WrappedPageRepeatsTheFirst`).

## Where the definitions are

The functions below only compute; the members in the table state what they
keep or mean.

* `PaymentCore`: `CanTransition`, `NewPayment` (`crates/core/src/payment.rs:25-44`, `:70-78`),
  `EventType` (`crates/core/src/events.rs:30-38`), `StatusText`, `ParseStatus`
  (`crates/payments/src/repository.rs:33-54`).
* `Settlement`: `Judge`, `Searched`, `Verified`, `Updated`, `Emitted`
  (`crates/reconciliation/src/worker.rs:40-152`); `Looked`, `Inserted`
  (`crates/payments/src/idempotency.rs:11-32`); `Committed` and the guard of
  `StartTransition` (`crates/payments/src/service.rs:92-117`).
* `PaymentTable`: `Create`, `UpdateStatus`, `FromRow`
  (`crates/payments/src/repository.rs:277-327`, `:331-373`, `:414-453`,
  `migrations/0001_create_payments.sql:4`, `:6`, `:17`,
  `migrations/0002_create_idempotency_keys.sql:2`).
* `PaymentRepository`: `Create`, `UpdateStatus`, `ValidFromStates`
  (`crates/payments/src/repository.rs:18-31`, `:119-144`, `:170-198`).
* `PaymentService`: `CreateWithIdempotency`, `CreatePayment`, `Transition`,
  `GetPayment`, `MayList` (`crates/payments/src/idempotency.rs:11-32`,
  `crates/payments/src/service.rs:25-117`); `PaymentTable`: `IsNewestList`,
  `CountOf` (`crates/payments/src/repository.rs:468-522`).
* `Outbox`: `Marked`, `Step`, `Reschedule`; `WebhookRepository`: `NewRecord`,
  `IsDueBatch`, `MarkDelivered`, `MarkFailed`
  (`crates/webhooks/src/repository.rs:103-202`, `crates/webhooks/src/service.rs:54-105`).
* `Horizon`: `Scan`, `Found`, `FindInList` (`crates/stellar/src/client.rs:195-247`, `:312-333`).

## Model

| member | source | states |
|---|---|---|
| `SettlementSafety.ActOk` | crates/reconciliation/src/worker.rs:67-152 | every step of every actor, acting on any earlier reading of a row, keeps the invariant of what the actors share and leaves the actor with a justified next step |
| `SettlementSafety.StepOk` | crates/reconciliation/src/worker.rs:40-152 | the invariant survives any step of any actor, any new ledger record and any passing of time, and rows, keys and ledger only move forward |
| `SettlementSafety.ReachableOk` | crates/reconciliation/src/worker.rs:40-152 | the invariant holds in every state any run can reach |
| `SettlementSafety.SearchActionOk` | crates/reconciliation/src/worker.rs:86-107 | an update to Detected is only asked for with a ledger record of equal amount, right destination and memo, not older than the payment |
| `SettlementDetection.AnswerIsNewestMatch` | crates/stellar/src/client.rs:195-247 | on any ledger kept in order, the search fails exactly when the page, or the memo of a candidate no older than the newest match, cannot be read, and otherwise answers that newest match |
| `SettlementDetection.SearchDetectsIff` | crates/reconciliation/src/worker.rs:86-107 | a search leads to an update if and only if it can be answered and the newest record on the page under the memo pays the amount; the update then is to Detected under that record's hash |
| `SettlementDetection.TurnDetectsIff` | crates/reconciliation/src/worker.rs:67-113 | a turn makes a Pending payment Detected if and only if it is younger than the configured window, has a memo, the search can be answered and the newest match pays, with that match's hash; and Expired if and only if its age has reached the window |
| `SettlementDetection.TwoTurnsConfirmIff` | crates/reconciliation/src/worker.rs:67-146 | two turns make a Pending payment Confirmed if and only if the first detects it, the second is told the verdict, and the newest match is of a successful transaction |
| `SettlementDetection.PassDetectsIff` | crates/reconciliation/src/worker.rs:40-52 | after an undisturbed pass of the machine, a Pending payment that had its turn is stored as Detected if and only if that condition held |
| `SettlementDetection.DetectableIffBacked` | crates/stellar/src/client.rs:203-243 | with at most fifty recent records and no other amount under the memo, the newest match pays exactly when the ledger holds a payment that does |
| `SettlementDetection.OtherAmountHidesThePayment` | crates/reconciliation/src/worker.rs:95-98 | a ledger whose page holds the payment, and no turn of any kind detects it: a newer record of another amount stands before it |
| `SettlementMoney.MoneyIsConserved` | crates/payments/src/repository.rs:414-453 | in every reachable state the payments workers confirmed are worth no more in total than the ledger's payments, each counted once, that went in a successful transaction to a stored payment's destination under its memo with its amount |
| `SettlementMoney.BornOutMoneyIsConserved` | crates/payments/src/service.rs:92-117 | at the end of any run the same holds of any Confirmed payments whose service calls the ledger bore out |
| `SettlementMoney.AllIsCoveredIffBornOut` | crates/payments/src/repository.rs:414-453 | counting for each Confirmed payment its own ledger record, all that is confirmed is covered if and only if every Confirmed payment is borne out |
| `SettlementEvidence.UpdateKeepsEvidenceIff` | crates/payments/src/repository.rs:427-445 | an update that takes effect keeps a row borne out if and only if the ledger bears the update out at that moment |
| `SettlementEvidence.JustifiedIsBornOut` | crates/reconciliation/src/worker.rs:67-146 | whatever a worker asks for is borne out, stale as its snapshot may be |
| `SettlementEvidence.StepKeepsEvidenceIff` | crates/payments/src/service.rs:92-117 | of all steps of all actors only a service call that takes effect without being borne out costs a payment its evidence |
| `SettlementEvidence.EvidenceIffCallsBornOut` | crates/payments/src/service.rs:45-65 | over any run, a payment's row is borne out in every state if and only if every service call on it was borne out when it took effect |
| `SettlementBypass.AllConfirmedMoneyIsConserved` | migrations/0001_create_payments.sql:17 | when the ledger bore out the service calls on the payments now Confirmed, the bound holds of all Confirmed payments |
| `SettlementBypass.UntouchedCallsAreBornOut` | crates/payments/src/service.rs:92-117 | payments no service call moved meet that condition |
| `SettlementBypass.ServiceMayConfirmUnpaid` | crates/payments/src/service.rs:45-57 | the service's transitions alone can confirm more than was ever paid |
| `SettlementMoney.SettledPaymentsHaveEvidence` | crates/reconciliation/src/worker.rs:86-146 | a payment moved only by workers is Confirmed (Failed) only if the transaction with its stored hash succeeded (did not), and the ledger holds a payment in it with its destination, memo and amount, not older than itself |
| `SettlementMoney.HashesAndEndsAreFinal` | crates/payments/src/repository.rs:427-445 | from any reachable state on, a stored hash never changes, a terminal row never changes, an amount never changes |
| `SettlementEvents.EventsAccountForTransitions` | crates/reconciliation/src/worker.rs:148-152 | per payment and status: transitions taken by workers = events enqueued + enqueues failed + workers about to enqueue + updates whose reply was lost |
| `SettlementEvents.EventsEnqueuedAtMostOnce` | crates/reconciliation/src/worker.rs:109-110 | no lifecycle event is enqueued twice and no payment gets more than two, over any number of workers |
| `SettlementEvents.LostTransitionIsNeverAnnounced` | crates/reconciliation/src/worker.rs:100-110 | a status update whose reply is lost takes effect, and in no run from then on does any worker try to enqueue its event |
| `SettlementEvents.PayloadsNameTheirStatus` | crates/core/src/events.rs:19-39 | every event workers try to enqueue is of a stored payment at an earlier or present version, and its type is "payment." followed by the text of the status in that payload |
| `PaymentCore.TypesNameStatuses` | crates/core/src/events.rs:30-38 | two events have the same type exactly when they name the same status |
| `PaymentCore.TypeIsStatusText` | crates/core/src/events.rs:30-38 | the type of every event but PaymentCreated is "payment." followed by the column text of the status it names; that one is "payment.created" |
| `PaymentCore.StatusTextRoundTrip` | crates/payments/src/repository.rs:33-54 | a status read from its column text is the one written, and no other text reads as it |
| `PaymentCore.LegalTransitions` | crates/core/src/payment.rs:70-78 | exactly Pending to Detected or Expired and Detected to Confirmed or Failed are legal, and terminal statuses have no way out |
| `SettlementCreation.SameKeySamePayment` | crates/payments/src/idempotency.rs:11-32 | over every interleaving, all successful answers under one key carry the same payment id, which the key points to and which exists |
| `SettlementCreation.KeysAreWriteOnce` | migrations/0002_create_idempotency_keys.sql:1-8 | a key once written keeps its payment in every later state, never dangles, and references stay unique |
| `SettlementCreation.LookupReplaysIffKeyStored` | crates/payments/src/idempotency.rs:16-20 | a request is answered with the stored payment exactly when its key is stored at its own lookup, and otherwise goes on to insert with nothing changed |
| `SettlementCreation.LookupMayFail` | crates/payments/src/idempotency.rs:16-20 | a lookup that fails ends its request with a database error and inserts nothing; without a key there is no lookup |
| `SettlementCreation.InsertsAreAllOrNothing` | crates/payments/src/repository.rs:331-373 | exactly when the amount fits and nothing clashes, one row and, if given, one key are written and everything else stays; otherwise nothing is, with Conflict or Database saying which |
| `SettlementCreation.InsertOutcome` | crates/payments/src/idempotency.rs:24-31 | the losing racer leaves neither payment nor key and is told DuplicateReference whichever constraint it broke |
| `SettlementCreation.DatabaseErrorMayHideAPayment` | crates/payments/src/idempotency.rs:24-31 | over refused writes and lost replies, Ok is told exactly when the payment was stored and the reply came; a database error exactly when the write was refused, the amount does not fit, or the reply to a stored payment was lost |
| `SettlementCreation.RefusedAsDuplicateIffKeyRaced` | crates/payments/src/idempotency.rs:16-31 | over any run from a request's own lookup, which found nothing and so saw the key not stored, to its insert: with a new id, a fitting amount and a reference still nobody's, it is refused as a duplicate if and only if the key is stored by then, and answered Ok otherwise |
| `SettlementCreation.RacingRequestIsNotReplayed` | crates/payments/src/idempotency.rs:9-32 | a reachable run in which two requests under one key end in one payment and one DuplicateReference for a reference nobody has |
| `SettlementLifecycle.HistoriesArePaths` | crates/core/src/payment.rs:70-78 | every payment's updates form a path of the transition relation to its present status, at most two of them, none to a status twice |
| `SettlementLifecycle.UpdatesAtMostTwicePayments` | crates/payments/src/service.rs:92-117 | successful updates of a run are at most twice the payments created, however stale the early reads |
| `SettlementLifecycle.WorkersExpireOnlyOldPayments` | crates/reconciliation/src/worker.rs:68-80 | a payment a worker expired was at least the configured window old at that moment; past 2^63 - 1 milliseconds the window counts as zero |
| `SettlementLifecycle.HashIffSeenOnLedger` | crates/payments/src/service.rs:45-65 | in every reachable state a hash is stored exactly for Detected, Confirmed and Failed |
| `SettlementLifecycle.MissingHashBranchIsDead` | crates/reconciliation/src/worker.rs:116-118 | a worker taking up a Detected payment always goes on to verify its hash: the early return is never taken |
| `SettlementOrder.EnqueuesFollowTransitions` | crates/reconciliation/src/worker.rs:100-110 | with one worker, beside anything else, the enqueues tried are the transitions it took, in order, at most the last outstanding |
| `SettlementOrder.TriesFollowThePaymentsHistory` | crates/reconciliation/src/worker.rs:40-52 | per payment too, tries follow the transitions taken, up to one outstanding |
| `SettlementOvertaking.DetectionUntriedIffInFlight` | crates/reconciliation/src/worker.rs:100-110 | with any number of workers, the event of a detection some worker learned of is untried exactly while it is in that worker's hands |
| `SettlementOvertaking.StepOvertakesIff` | crates/reconciliation/src/worker.rs:148-152 | the one step that lets a later event overtake is enqueueing it while the detection's is in flight |
| `SettlementOvertaking.EventsFollowHistoryIffNoOvertaking` | crates/reconciliation/src/worker.rs:100-146 | over any run with any number of workers, the events tried for a payment follow its history, and none in flight will break that, if and only if no later event was enqueued while the detection's was in flight |
| `SettlementOvertaking.OneWorkerNeverOvertakes` | crates/api/src/startup.rs:90-95 | with one worker that never happens |
| `SettlementDelivery.EnqueueIsStored` | crates/webhooks/src/repository.rs:103-127 | an enqueue adds its record to what is stored, last in order |
| `SettlementDelivery.DeliveriesKeepEvents` | crates/webhooks/src/repository.rs:151-185 | fetches, POSTs, marks and lost marks keep every stored record's id, payload, payment and creation time |
| `SettlementDelivery.OutboxHoldsWhatWasEnqueued` | crates/webhooks/src/service.rs:38-65 | in every state a joint run of workers and deliveries reaches, the repository holds exactly one record for each event enqueued, in order, and each machine is in a state it reaches on its own |
| `SettlementDelivery.StoredTypesTellTheStatus` | crates/webhooks/src/service.rs:38-52 | in every state of a joint run, the type text of a stored record spells out the status of the payment in it, which is a version of a stored row |
| `SettlementDelivery.JointRunIsASettlementRun` | crates/api/src/startup.rs:90-102 | leaving the deliveries out of a joint run leaves a run of the settlement machine to the same state |
| `SettlementDelivery.SettlementRunIsJoint` | crates/api/src/startup.rs:90-102 | conversely every settlement run is the settlement part of some joint run |
| `SettlementListing.ListingIsTheTriesThatSucceeded` | crates/webhooks/src/repository.rs:187-202 | after any joint run, once the clock moves on between a payment's enqueues, its listing is exactly its tried events in order with the failed enqueues left out |
| `SettlementListing.ListingFollowsHistoryUnlessOvertaken` | crates/webhooks/src/repository.rs:187-202 | with any number of workers, unless a later event overtook, the statuses that listing names are a subsequence of the payment's history |
| `SettlementListing.ListingFollowsHistory` | crates/webhooks/src/repository.rs:199-199 | with one worker, every answer the listing may give follows the payment's history if and only if the clock moved on between the payment's enqueues |
| `SettlementTies.OneWorkerMayBeListedBackwards` | crates/webhooks/src/repository.rs:199-199 | a joint run of one worker that enqueues both events of a payment at one time, and a possible listing that has them backwards |
| `SettlementRace.TwoWorkersMayReverseEvents` | crates/reconciliation/src/worker.rs:100-110 | a reachable run of two workers in which the confirmation is enqueued before the detection |
| `PaymentTable.CreateKeepsConstraints` | migrations/0001_create_payments.sql:2-17 | creation keeps references, hashes and keys unique and every key pointing to a row |
| `PaymentTable.UpdateKeepsConstraints` | crates/payments/src/repository.rs:414-453 | so does the guarded update, whatever hash it is given |
| `PaymentTable.UpdateMovesOneRow` | crates/payments/src/repository.rs:427-433 | an update moves rows forward only: fixed columns stay, no status goes back, a hash set once stays |
| `PaymentTable.CreateOnlyAdds` | crates/payments/src/repository.rs:331-373 | creation leaves every existing row and key as it is |
| `PaymentTable.PendingListIs` | crates/payments/src/repository.rs:455-466 | the table lists for reconciliation exactly the Pending and Detected payments, each once, by creation time ascending |
| `PaymentTable.NewestListIs` | crates/payments/src/repository.rs:468-503 | and pages exactly the payments of the wanted status, each once, by creation time descending |
| `ReconciliationWorker.ReconciliationWorker.RunOnce` | crates/reconciliation/src/worker.rs:40-52 | the pass lists every Pending or Detected payment once, by creation time ascending; repository and outbox afterwards are the pure step applied to exactly the prefix before the first failed query, which is what decides success |
| `ReconciliationWorker.ReconciliationWorker.ProcessPending` | crates/reconciliation/src/worker.rs:67-113 | in place: Expired exactly when its age has reached the configured window, else Detected under the found hash exactly when the found amount matches, else unchanged; failure exactly on a failed query; its event is that of `OneEventPerEdge` |
| `ReconciliationWorker.ReconciliationWorker.ProcessDetected` | crates/reconciliation/src/worker.rs:115-146 | in place: Confirmed or Failed by the verdict, unchanged without a hash or an answer, failure exactly on a failed query |
| `ReconciliationWorker.AtMostOneEdge` | crates/reconciliation/src/worker.rs:43-49 | the pure step follows at most one edge and stamps the time, leaves fixed fields and terminal payments alone, and changes nothing when it ends the pass |
| `ReconciliationWorker.OneEventPerEdge` | crates/reconciliation/src/worker.rs:148-152 | a turn that moves its payment stores one event, due at once, with the new version as payload and a type that spells out the new status; any other turn stores none |
| `ReconciliationWorker.InPlaceIsPointwise` | crates/reconciliation/src/worker.rs:43-49 | writing payment after payment equals one simultaneous step on those who had their turn |
| `ReconciliationWorker.UndisturbedPassIsPointwise` | crates/reconciliation/src/worker.rs:40-52 | a pass nobody ends early is the pure step on every payment of the repository |
| `ReconciliationRefinement.TurnIsARun` | crates/reconciliation/src/worker.rs:67-146 | a worker's undisturbed turn in the machine is the pure step on the table, with its event enqueued |
| `ReconciliationRefinement.PassIsARun` | crates/reconciliation/src/worker.rs:40-52 | without interference, a pass over the constrained table is a run of the machine from idle to idle: the payments before the first turn whose query fails, or whose hash is taken after the turns before it, have had the pure step, all others stay, and the events are enqueued in that order |
| `ReconciliationRefinement.SharedHashEndsThePass` | crates/reconciliation/src/worker.rs:43-49 | a payment offered the hash of one past detection ends the pass at its turn at the latest, so those listed after it have no turn |
| `ReconciliationRefinement.UnsharedPassIsARun` | crates/reconciliation/src/worker.rs:40-52 | when no hash is shared, that leaves the same payments as the in-place loop over the in-memory repository |
| `PaymentRepository.GuardIsRelation` | crates/payments/src/repository.rs:18-31 | the set-based guard and the transition relation agree on every pair, and terminal states have no way out |
| `PaymentRepository.CreateKeepsCoherent` | crates/payments/src/repository.rs:119-144 | in memory too references stay unique and keys never dangle |
| `PaymentRepository.UpdateKeepsCoherent` | crates/payments/src/repository.rs:170-198 | and updates keep that |
| `PaymentRepository.InMemoryPaymentRepository.CreateWithIdempotencyKey` | crates/payments/src/repository.rs:119-144 | the scan and the two insertions are the specified creation, with the state left alone on Conflict |
| `PaymentRepository.InMemoryPaymentRepository.FindByReference` | crates/payments/src/repository.rs:151-158 | finds the stored payment with that reference exactly when there is one |
| `PaymentRepository.InMemoryPaymentRepository.FindByKey` | crates/payments/src/repository.rs:160-168 | finds the payment of a key, and finds one exactly when the key is stored |
| `PaymentRepository.InMemoryPaymentRepository.Update` | crates/payments/src/repository.rs:170-198 | field by field in place: the specified guarded update, on one payment only |
| `PaymentRepository.InMemoryPaymentRepository.ListPendingForReconciliation` | crates/payments/src/repository.rs:200-218 | every Pending or Detected payment exactly once and no other, by creation time ascending |
| `PaymentRepository.InMemoryPaymentRepository.ListPaginated` | crates/payments/src/repository.rs:220-247 | the requested window of the newest-first filtered list: only stored payments of the wanted status, by creation time descending, none twice |
| `PaymentRepository.InMemoryPaymentRepository.Count` | crates/payments/src/repository.rs:249-262 | the number of payments with the wanted status |
| `PaymentRepository.NewestIs` | crates/payments/src/repository.rs:228-237 | the list behind the pages holds exactly the payments of the wanted status, each once, by creation time descending |
| `PaymentRepository.PagesTileTheListing` | crates/payments/src/repository.rs:220-262 | while offsets fit in 32 bits, all pages together are every matching payment once, newest first, and their lengths sum to the count |
| `PaymentRepository.StatusCountsAddUp` | crates/payments/src/repository.rs:249-262 | the five per-status counts sum to the unfiltered count |
| `Pagination.PagesTile` | crates/payments/src/repository.rs:239-246 | the first n pages are the first n * per_page rows, none skipped or repeated |
| `Pagination.OffsetIsTrueIffItFits` | crates/payments/src/repository.rs:239-239 | the offset is (page - 1) * per_page modulo 2^32, the intended one exactly below 2^32, and page 0 shows page 1 |
| `Pagination.WrappedPageRepeatsTheFirst` | crates/payments/src/repository.rs:239-246 | a page far past the end shows the first page again |
| `PaymentService.PaymentService.Create` | crates/payments/src/service.rs:25-43 | validation, defaults and idempotent creation in place, as specified; refused for its amount if and only if the text is not one that `ValidIffAmountText` describes |
| `PaymentService.PaymentService.CreateIdempotently` | crates/payments/src/idempotency.rs:11-32 | lookup, then creation, with Conflict turned into DuplicateReference |
| `PaymentService.PaymentService.MoveTo` | crates/payments/src/service.rs:92-117 | NotFound for an unknown id, InvalidTransition unless the pair is one of the four legal ones, and otherwise the payment moved, stamped and given the hash, all others and all keys as before |
| `PaymentService.PaymentService.MarkDetected` | crates/payments/src/service.rs:45-53 | moves to Detected with the given hash |
| `PaymentService.PaymentService.ConfirmPayment` | crates/payments/src/service.rs:55-57 | moves to Confirmed without touching the hash |
| `PaymentService.PaymentService.FailPayment` | crates/payments/src/service.rs:59-61 | moves to Failed without touching the hash |
| `PaymentService.PaymentService.ExpirePayment` | crates/payments/src/service.rs:63-65 | moves to Expired without a hash |
| `PaymentService.PaymentService.GetById` | crates/payments/src/service.rs:67-75 | answers the stored payment with that id exactly when there is one, and NotFound otherwise |
| `PaymentService.PaymentService.ListPayments` | crates/payments/src/service.rs:77-90 | a page of the newest-first list and the total, in some order of payments created together: only payments of the wanted status, by creation time descending, and the number of all of them |
| `PaymentServiceProperties.CreatedAsRequested` | crates/payments/src/service.rs:25-43 | over either repository a new payment has the requested reference and amount, the given or default destination, the given or generated memo, is Pending without a hash, is found by its id and its key, and no other payment changes |
| `PaymentServiceProperties.RefusedCreationChangesNothing` | crates/payments/src/service.rs:33-33 | a refused creation leaves the repository as it was, and is refused for its amount exactly when the text is no amount |
| `PaymentServiceProperties.CreationOutcome` | crates/payments/src/idempotency.rs:11-32 | every request over either repository: no amount text, InvalidAmount; a key seen, the stored payment; too large for the column, Database; a clash, DuplicateReference; else the payment as requested |
| `PaymentServiceProperties.FirstCreationSucceedsIff` | crates/payments/src/service.rs:25-43 | on an empty repository a creation succeeds if and only if its text is an amount, and over Postgres below 10^13 |
| `PaymentServiceProperties.RetryReplays` | crates/payments/src/idempotency.rs:9-20 | after a success under a key, every request under it with a valid amount gets the same payment and changes nothing |
| `PaymentServiceProperties.TransitionLeavesOthers` | crates/payments/src/repository.rs:170-198 | every other payment stays as it is, and every key finds the payment with the same id as before, or none as before |
| `PaymentServiceProperties.TransitionsDoNotRepeat` | crates/core/src/payment.rs:70-78 | a transition that succeeded is refused when repeated |
| `PaymentServiceProperties.CreationKeepsSound` | crates/payments/src/service.rs:25-43 | creations keep either repository's constraints |
| `PaymentServiceProperties.TransitionKeepsSound` | crates/payments/src/service.rs:92-117 | so do transitions |
| `RepositorySimulation.PaymentCallsAgree` | crates/payments/src/service.rs:25-75 | from related states each call about a payment gives the same result and related states on both repositories, if and only if it is not one of the two exceptions |
| `RepositoryListing.ListingsAgree` | crates/payments/src/service.rs:77-90 | whatever order either repository takes, totals are equal, and pages agree position by position in creation time and hold the same payment wherever no other was created at that time |
| `RepositoryListing.ListingsAgreeWithoutTies` | crates/payments/src/repository.rs:468-503 | when no two payments were created together, pages hold the same payments |
| `RepositoryListing.CountsAgree` | crates/payments/src/repository.rs:505-522 | related repositories count the same payments of each status |
| `RepositoryListing.ListingsExist` | crates/payments/src/repository.rs:220-262 | either repository has an answer to every listing |
| `RepositoryRuns.CallsAgree` | crates/payments/src/service.rs:25-117 | for every service call, listings included, all replies either side may give agree and the states stay related, if and only if it is not one of the two exceptions |
| `RepositorySimulation.OnlyTheTableRefuses` | crates/payments/src/repository.rs:277-285 | in the two exceptions the table answers Database or Conflict and stays as it is, while memory refuses at most a repeated reference |
| `RepositoryDisagreements.LargeAmountTellsThemApart` | migrations/0001_create_payments.sql:6-6 | the first creation of all, with the amount 10^13: memory stores the payment, the table answers Database |
| `RepositoryDisagreements.ReusedHashTellsThemApart` | migrations/0001_create_payments.sql:17-17 | from two empty services over two creations and a detection: detecting the second payment under the same hash succeeds in memory and is a Conflict at the table |
| `RepositorySimulation.CreatesAgree` | crates/payments/src/repository.rs:331-373 | creations of fitting amounts succeed or conflict alike and keep the repositories related |
| `RepositorySimulation.TransitionsAgree` | crates/payments/src/service.rs:92-117 | transitions agree exactly unless they are legal and bring a hash another payment holds |
| `RepositoryRuns.RunsAgreeIff` | crates/payments/src/repository.rs:58-89 | a sequence of calls with fresh ids is answered alike throughout if and only if none of them is an exception when it is made |
| `RepositoryRuns.RunsAgree` | crates/payments/src/repository.rs:58-89 | calls with fresh ids, hashes offered once and amounts below 10^13, listings among them, are answered alike throughout |
| `RepositoryRuns.FreshServicesAgree` | crates/payments/src/repository.rs:58-89 | two services started empty cannot be told apart by such calls |
| `Outbox.StepKeepsInv` | crates/webhooks/src/service.rs:54-105 | every enqueue, fetch, answer, mark, lost mark and tick keeps the records consistent and the loop's snapshots current |
| `OutboxProperties.RecordsAreConsistent` | crates/webhooks/src/repository.rs:151-185 | Pending iff a next attempt is set, Delivered iff a delivery time is and exactly one delivery is recorded, Failed iff six attempts; attempts are the recorded failures, and the record is filed under its event's payment with the text of the status that event names |
| `OutboxProperties.SnapshotsStayCurrent` | crates/webhooks/src/service.rs:60-62 | every snapshot waiting in a batch still is the stored record, still due, when its turn comes |
| `OutboxProperties.TerminalStatesAbsorb` | crates/webhooks/src/repository.rs:151-185 | a delivered or failed record stays exactly as it is, along every run |
| `OutboxProperties.RetriesAreSpaced` | crates/webhooks/src/service.rs:94-100 | after one to five failures the next attempt is exactly 60, 300, 900, 3600 or 21600 seconds after the last one, and at least 60, 360, 1260, 4860 or 26460 seconds after creation; no event fails for good before 26460 seconds |
| `Backoff.ScheduleGivesOut` | crates/webhooks/src/backoff.rs:5-24 | the schedule ends exactly at the sixth failure and adds up to 26460 seconds |
| `Backoff.DelaysAre` | crates/webhooks/src/backoff.rs:5-24 | none before the first attempt, then 60, 300, 900, 3600 and 21600 seconds, then no more |
| `OutboxProperties.PostsAreAccountedFor` | crates/webhooks/src/service.rs:67-105 | POSTs = recorded failures + recorded deliveries + lost marks + the one not marked yet |
| `OutboxProperties.AtMostSixPosts` | crates/webhooks/src/service.rs:67-105 | at most six POSTs per event, and one more for every lost mark |
| `OutboxProperties.PotentialFalls` | crates/webhooks/src/service.rs:67-105 | a measure over the whole queue falls with every recorded outcome and rises by six with every enqueue |
| `OutboxProperties.OutcomesAreBounded` | crates/webhooks/src/backoff.rs:16-24 | finitely many enqueues have at most six times as many outcomes |
| `OutboxFairness.DueEventsAreServedDespiteLosses` | crates/webhooks/src/repository.rs:129-149 | an event due with r others is posted within (r + l) / 50 + 1 passes of which l marks are lost, whatever is enqueued and answered meanwhile |
| `OutboxFairness.DueEventsAreServed` | crates/webhooks/src/repository.rs:129-149 | so within r / 50 + 1 passes while marks succeed |
| `OutboxFairness.BatchWithoutIsFullOfRivals` | crates/webhooks/src/repository.rs:145-146 | a batch that leaves a due event out holds fifty others due by then |
| `WebhookRepository.PrefixIsDueBatch` | crates/webhooks/src/repository.rs:136-146 | sorting and truncating gives a batch of due records, earliest first, short only when it holds them all |
| `WebhookRepository.BatchIsEarliestDue` | crates/webhooks/src/repository.rs:136-146 | in the columns' own terms, such a batch is of Pending records whose next attempt is not after now, by that time ascending, and full when it leaves one out, which is then due no earlier |
| `WebhookRepository.InMemoryWebhookEventRepository.Enqueue` | crates/webhooks/src/repository.rs:103-127 | adds one pending record due at once, of no attempts, whose type spells out the status its event names, and changes no other |
| `WebhookRepository.InMemoryWebhookEventRepository.FetchDue` | crates/webhooks/src/repository.rs:129-149 | returns such a batch for any limit, negative ones included |
| `WebhookRepository.InMemoryWebhookEventRepository.MarkAsDelivered` | crates/webhooks/src/repository.rs:151-165 | sets status, delivery time and change time and clears the next attempt of that record alone, or NotFound and no change |
| `WebhookRepository.InMemoryWebhookEventRepository.MarkAsFailed` | crates/webhooks/src/repository.rs:167-185 | counts one more attempt, sets the next one, or Failed without one, of that record alone, or NotFound and no change |
| `WebhookRepository.InMemoryWebhookEventRepository.ListForPayment` | crates/webhooks/src/repository.rs:187-202 | every record of the payment once, by creation time ascending |
| `WebhookService.WebhookService.EnqueueEvent` | crates/webhooks/src/service.rs:38-52 | stores the event's record under its payment, due at once, with the text of the status the event names as its type |
| `WebhookService.WebhookService.DeliverDue` | crates/webhooks/src/service.rs:54-65 | fetches the at most fifty earliest due records and leaves the repository as its turns in order leave it |
| `WebhookService.WebhookService.DeliverOne` | crates/webhooks/src/service.rs:67-105 | an accepted POST marks the record delivered now; one that is not counts an attempt and sets the next 60, 300, 900, 3600 or 21600 seconds from now, and after the sixth the record has failed |
| `WebhookService.PassSettlesTheBatch` | crates/webhooks/src/service.rs:54-105 | a pass turns each record of its batch into the outcome of its own answer and touches nothing else |
| `WebhookService.PassIsARun` | crates/webhooks/src/service.rs:54-65 | a pass of the service is a run of the outbox machine from rest to rest |
| `Horizon.FindPayment` | crates/stellar/src/client.rs:195-247 | the loop with continue, break and early return computes the scan, and passes a failed page on |
| `Horizon.FoundIsAMatch` | crates/stellar/src/client.rs:216-244 | on any page, a result is a record that passes every filter, with that record's hash, sender, amount, asset type and time |
| `Horizon.NothingAfterTheBreak` | crates/stellar/src/client.rs:221-223 | on any page, nothing after the first payment older than the query is looked at |
| `Horizon.ScanIsNewestMatch` | crates/stellar/src/client.rs:216-246 | on a page newest first the scan returns the newest match, and fails exactly when a memo lookup fails before it |
| `Horizon.RecentMatchesAreOnThePage` | crates/stellar/src/client.rs:203-209 | with at most fifty records not older than the query, a match on the ledger is a match on the page |
| `Horizon.ScanAgreesWithList` | crates/stellar/src/client.rs:312-333 | without lookup errors the scan finds something exactly when the page has a match, the list search exactly when the ledger has one; they agree whenever at most fifty records are recent |
| `Horizon.ScanAgreesIffMatchIsRecent` | crates/stellar/src/client.rs:203-209 | the two searches agree on whether there is a match if and only if there is none or fewer than fifty records of the feed are newer than the newest |
| `Horizon.FindInList` | crates/stellar/src/client.rs:323-332 | finds a matching payment exactly when the list has one, and then the first in the list |
| `Horizon.FiftyNewerRecordsHideAMatch` | crates/stellar/src/client.rs:203-209 | a ledger with a match the scan cannot see |
| `Decimals.PrintParseRoundTrip` | crates/payments/src/repository.rs:317-317 | parsing a printed decimal gives back the same digits and scale |
| `Decimals.NormalFormUnique` | crates/payments/src/repository.rs:317-317 | normal decimals of equal value are identical |
| `Amounts.MatchIffSameText` | crates/reconciliation/src/matching.rs:10-22 | amounts match exactly when both parse and their normal texts are identical, and for validated ones exactly when their 7-digit units are equal |
| `Amounts.StorageRoundTrip` | crates/payments/src/repository.rs:303-327 | the text read back for a stored amount validates again, matches the original, is its normal text, and is stored as the same units |
| `Amounts.StoredIffBelowLimit` | migrations/0001_create_payments.sql:6-6 | a validated amount is stored exactly when it is below 10^13 |
| `Amounts.EqualIffSameUnits` | crates/payments/src/amount.rs:10-23 | amounts of at most seven fractional digits are equal exactly when their 7-digit integers are |
| `Amounts.RoundsToNearest` | migrations/0001_create_payments.sql:6-6 | what the column rounds is rounded to the nearest unit, halves away from zero |
| `AmountTexts.ValidIffAmountText` | crates/payments/src/amount.rs:10-23 | a text is accepted if and only if it is digits, after a plus sign or none, with none to seven digits after a point, trailing zeros or not, below 10^28 without the point, and some digit is not zero |
| `AmountTexts.ShortTextIsAmount` | crates/payments/src/amount.rs:26-39 | so any such text of at most 28 digits is accepted |
| `AmountTexts.RefusedTexts` | crates/payments/src/amount.rs:41-59 | and a minus sign, zero, or more than seven fractional digits is refused |
| `AmountTexts.MatchIffSameDigits` | crates/reconciliation/src/matching.rs:10-22 | two accepted texts match if and only if their digits, filled up to seven fractional places, are the same number |
| `AmountTexts.TrailingZerosMatch` | crates/reconciliation/src/matching.rs:30-33 | so trailing zeros never make a difference |
| `AmountTexts.StoredAsDigits` | migrations/0001_create_payments.sql:6-6 | the column holds exactly that number for every accepted text, and refuses 10^20 and more |

## Left out

* HTTP routing, JSON, configuration, signing, memo and id generation, the command line: plumbing around the modelled code.
* The on-chain recorder (`crates/reconciliation/src/worker.rs:128-132`): its failure is ignored and it changes no modelled state.
* Ids: assumed fresh where the code draws random ones; the table still refuses a repeated payment id.
* The asset: one value only, checked by a column constraint; the ledger record's asset type is not checked by the code and so not part of the evidence.
* `find_payment` against a changing ledger: a page and its memo lookups are one step, since memos of a transaction do not change; each lookup may fail on its own.
* Several delivery loops: marks are unguarded, so terminal records would not be absorbing; the deployment runs one loop.
* The Postgres webhook repository: the same operations in SQL, except that marking an unknown id is no error there.
* Crashes of a process: a worker that stops between its update and its enqueue is covered as one that never takes its next step.
* Number texts outside an optional sign, digits and an optional point followed by digits (underscores, a leading or trailing point, exponents), and more than 28 digits, which the decimal library may accept or round.
* Time is in whole microseconds; the clock read inside `mark_failed` and the one in `deliver_one` before it are taken as one reading, and an enqueue reads the clock and inserts in one step. The code reads it before it takes the lock or sends the statement (`crates/webhooks/src/repository.rs:103-127`), so a delayed insert can add a record due by an earlier time, which the bound of `DueEventsAreServedDespiteLosses` rules out.
* Arithmetic overflow: page offsets wrap as in a release build, a debug build would panic; attempt counters and totals are unbounded.
* The order in which a hash table is iterated is arbitrary here, and sorting is the stable sort the code relies on; neither is modelled further.
* The asset column's text, and the errors for unknown status and asset texts: the model's columns hold only valid values.
* SettledPaymentsHaveEvidence: speaks of payments no service call moved, because the service's transitions require no evidence; EvidenceIffCallsBornOut has the exact condition for the others.
* RunsAgreeIff: takes ids as fresh, because the in-memory repository overwrites on a repeated id where the table refuses it.
* RunOnce: the class runs on the in-memory repository, which cannot fail to list or update on its own; refused and lost writes are in the machine.
