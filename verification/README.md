# Booking protocol verification

A Dafny model of the shipping backend's booking protocol and of the smaller exact computations around it, with
proofs over all inputs and all runs. `dafny verify dfyconfig.toml` checks everything.

## What is modelled

**The booking protocol.** One shipment's rows (shipment, booking intents, frozen snapshots) change by the
transactions of `queueBooking`, the booking worker, the two resolvers, the cancellation and pickup services, under
the triggers of migrations 0003, 0006 and 0009. Between two transactions of a process lies a courier call, a crash,
or any step of any other process.

- `ShipmentRows`, `BookingTransactions`: rows, triggers, and each transaction as a function of the rows and of what
  it read about other shipments. A raising trigger aborts with no effect. `RowTriggers`: what the triggers guarantee
  against every writer.
- `BookingProtocol`: the transition system. 30 kinds of steps; a step that is not enabled changes nothing, so every
  sequence of steps is a run and every theorem is about every sequence.
- `RecordInvariant`, `BookingInvariant`, `BookingEvolution`, `BookingSafety`: the inductive invariant, step by step,
  and what can never be undone. `BookingTheorems` states the consequences over reachable states and runs.
- `JobOutcomes`, `CustodyEvents`, `Interruptions` (over `SingleSteps`): what each operation comes to in a state that a
  run has reached, in plain columns: which reply of the courier leaves which rows, when queueing, claiming, a pickup or
  a cancellation takes effect and when it changes nothing, and how work resumes after a crash. `SentRequests` says
  field by field what the courier is sent.
- `ExactlyOnce`: at most one courier shipment per local shipment, given answers that are truthful and final and AWBs
  that stay distinct after normalisation. `FinalityNeeded` shows that a false failure is enough to book twice, with
  a run from the empty database.
- `RetrySafety`, `RetryExactly`: the same question for a database with a past. After any run, whatever the courier's
  answers were worth, and with nothing in flight, they say exactly when every honest continuation books every
  shipment at most once. `SettledAttempts` is the part of it that needs no assumption: a settled attempt whose create
  never left the process is never sent later. `LoginFailures` shows two reachable databases with the same rows, one
  safe to retry and one not.
- `Collectible`, `SealedVersions`: cash on delivery and who can be queued again; sealed master data.
- `LedgerDebits`, `LedgerGap`: when the DEBIT of a confirmed shipment is in the ledger, and the runs in which a
  REVERSAL stands without it.
- `BookingLocking`: the transactions taken apart into row lock, advisory lock, order lock, reads of committed data
  and commit. Every interleaving refines an atomic run. `UnlockedClash` reaches a state in which, without the advisory
  lock, it would not; `SerialTransactions` shows that an undisturbed transaction always gets through its locks.
- `BookingServices`: the services as statements over mutable tables with rollback, each equal to its transaction.
  `JobAnswers` goes from what account, policy, token endpoint and courier did to the rows a booking job leaves.

**Overage charging.** `Overage` is the machine whose calls interleave statement by statement; `OverageInvariant`,
`OverageTheorems` give conservation and say which charges are credited; `OverageCap` bounds a cycle's charges;
`OverageWithBooking` drives the machine by the booking machine; `OverageService` runs the same statements over mutable
tables. Recording, submission and reversal of a shipment may overlap in any way.

**Bulk batches.** `BulkBooking`: the resumable worker loop and the admission counter, redeliveries included.

**Courier adapters.** `CourierAdapter`: the memo by intent, the single resend after a 401, bodies that are lost, and the
refusals on the way to an adapter (account, credentials, breaker, budget).

**Exact printers and arithmetic.** `Decimal`, `Money`, `ProviderAmounts`, `BookingSnapshot`, `AwbNumbers`, `Pdf`.

### Environment assumptions

- One worker per job, one resolver in flight per shipment. Both are built into the processes a shipment has: a map of
  workers by attempt, and one resolver. They are needed: `confirmBooking` accepts SUBMITTED as well as
  OUTCOME_UNKNOWN and does not check again which intent is current.
- The courier is a map from the merchant references it was sent to a word it never takes back. Nothing in the safety
  theorems of `BookingTheorems` depends on what it answers; only `ExactlyOnce`, and the continuations that
  `RetryExactly` speaks of, assume more, and state it (`Truthful`, `FreshAwb`): a confirmation is truthful if the
  courier booked the attempt under that AWB, a refusal if the attempt is not live, that is, barred or never sent.
- Row locks make a transaction on one shipment's rows atomic with respect to others on the same shipment. What a
  transaction reads about other shipments is a parameter of the step; a negative answer must still hold at the
  commit. `BookingLocking` derives that from the locks.

### Where the code does less than its comments say

- The adapters report DNS, TLS and connection failures and provider errors as FAILED. If the courier had created the
  shipment all the same, a retry creates a second one (`LostAnswerBooksTwice`). Exactly when failed shipments may be
  retried is `RetryExactly`: no shipment has two attempts that are booked or can still be, none that can be queued
  again has one, and every AWB held was issued by the courier.
- A failed login is settled FAILED before any create is posted, and a retry is safe if none had been posted earlier. But
  a job whose worker died after its create left is delivered again, and if that delivery fails to log in the attempt
  is settled FAILED all the same, booked or not. The two cases leave the same rows (`SameRowsOtherFate`).
- A response whose body is lost is recorded nowhere, so the adapter sends the intent again if it is asked again; with
  no body lost it never does (`LostBodyResends`).
- A FAILED sibling whose row still carries a frozen collectible cannot be queued again while another shipment of the
  order is the carrier: re-entering DRAFT names `booking_state`, the trigger fires on the old amount and aborts. A
  shipment in a queueable state can be queued if and only if its row froze nothing or nobody else is the carrier
  (`QueueAgainExactly`); until the carrier is cancelled nothing changes it (`OvertakenIsStuck`).
- A confirmed live shipment lacks its DEBIT exactly while the confirming process is still about to write it, and for
  good when that process died in between or found no active subscription; the later REVERSAL does not look for it
  (`DebitExactly`, `ReversalWithoutDebitExactly`, with one run for each way in `LedgerGap`).
- A charge sent to Shopify for a shipment that was then reversed is credited if and only if the reversal read it
  SUBMITTED or ACCEPTED and did not crash (`CreditedExactly`, `SentWithoutCreditExactly`). It is not when the process
  died between the Shopify call and the stamp, after which the row goes REVERSED with no overlap at all
  (`CrashLosesCredit`); when the reversal overlapped the submission (`OverlapLosesCredit`); when it ran before the
  record was inserted (`EarlyReversalLosesCredit`); or when it died itself (`ReversalCrashLosesCredit`).
- Every delivery of a bulk job that finds its batch not terminal releases the slot, so `k` redeliveries that do can let
  `k` more batches run at once (`SurplusLetsIn`). The release is DECR and then, below zero, SET 0; batches admitted
  in between are forgotten by the SET, so a single redelivery can let five run (`ResetLetsInMore`); the expiry of the
  key forgets every batch it counted (`ExpiryLetsInMore`). `AdmittedBound` is the exact account; with one release per
  batch and no expiry of the key it is two.
- A version row edited between the booking's read and its seal is sealed with columns that never match the snapshot
  (`SealedExactlyWhenCurrent`).

## Model

| member | source | states |
|---|---|---|
| ExactlyOnce.ExactlyOnce | src/modules/booking/booking-worker.service.ts:99-247 | in every run with truthful, final answers and distinct AWBs, at most the latest attempt of a shipment is booked, and every booking is some attempt's |
| ExactlyOnce.DatabaseTellsTruth | src/modules/booking/booking-worker.service.ts:355-386 | in those runs a shipment that shows an AWB is booked under it, and a FAILED one is not booked |
| ExactlyOnce.NoDuplicate | src/modules/booking/booking-worker.service.ts:292-340 | in those runs the duplicate-AWB quarantine is never taken |
| ExactlyOnce.HolderIsBooked | src/modules/booking/booking-worker.service.ts:355-386 | the AWB a shipment holds is the normalised one the courier issued for its latest attempt |
| ExactlyOnce.HonestStepKeeps | src/modules/booking/booking-worker.service.ts:163-247 | every step keeps what processes hold about references equal to the courier's word |
| ExactlyOnce.RunTraces | src/modules/booking/booking-worker.service.ts:163-191 | in every run, honest or not, creates carry references of recorded attempts and only requested references are ruled on |
| FinalityNeeded.FailedButBookedDoubles | src/modules/booking/booking.service.ts:292-300 | from any state in which an attempt of a shipment that can be queued is booked, an honest continuation books the shipment twice, cash on delivery included |
| FinalityNeeded.LostAnswerBooksTwice | src/modules/amazon_shipping/amazon_shipping.adapter.ts:331-344 | from the empty database, one connection failure reported as a refusal and one retry book a shipment twice |
| RetryExactly.RetryExactly | src/modules/booking/booking.service.ts:292-300 | from any reachable state with nothing in flight: every honest continuation books every shipment at most once if and only if no shipment has two live attempts, none that can be queued again has one, and every AWB held was issued |
| RetryExactly.HonestIsSafe | src/modules/booking/booking-worker.service.ts:99-247 | a run honest from the start ends, with nothing in flight, in such a state |
| RetrySafety.SafeStaysOnce | src/modules/booking/booking-worker.service.ts:99-247 | the conditions suffice, whatever false answers preceded |
| RetrySafety.StuckForever | migrations/0003_week3_orders_shipments.js:360-382 | a sibling that froze the amount never changes again once the carrier is collected, or left CANCEL_REQUESTED with no call under way |
| RetryExactly.UnsafeDoubles | src/modules/booking/booking.service.ts:292-300 | where one of the conditions fails, some honest continuation books a shipment twice |
| SettledAttempts.UnsentForever | src/modules/booking/booking-worker.service.ts:131-148 | in every run, whatever is answered, an attempt that was settled without its create having left the process is never sent later |
| SettledAttempts.UnsentNeverBooked | src/modules/booking/booking-worker.service.ts:131-148 | so no continuation, honest or not, books it |
| LoginFailures.SameRowsOtherFate | src/modules/booking/booking-worker.service.ts:209-219 | two reachable states with nothing in flight and the same rows, FAILED by a login: in one nothing was ever sent and every honest continuation books at most once, in the other the create of an earlier delivery had left and some honest continuation books twice |
| BookingTheorems.IntentStateCoupling | src/modules/booking/booking-worker.service.ts:131-148 | at most one unresolved intent and it is the latest; the booking state holds exactly when the latest outcome says so |
| BookingTheorems.SettledForever | src/modules/booking/booking-worker.service.ts:514-600 | a settled intent keeps its outcome, every intent its reference and digest, for the rest of every run |
| BookingTheorems.AllReferencesDistinct | src/modules/booking/booking.service.ts:675-709 | all intents of a run have pairwise distinct merchant references |
| BookingTheorems.AwbUniqueness | src/modules/booking/booking-worker.service.ts:270-376 | no two non-VOID shipments share shop, account and AWB; an AWB is present exactly in CONFIRMED and VOID and never changes; VOID is never left |
| BookingTheorems.NoTwoAlike | migrations/0003_week3_orders_shipments.js:360-382 | in columns: two active AWBs of one shop and account differ; of two active AWBs of one order at most one collects |
| BookingTheorems.PickupIsFinal | src/modules/booking/cancellation.service.ts:156-184 | the row of a collected shipment never changes again; it is not voided, reversed or credited |
| BookingTheorems.PickedUpIsCustody | src/modules/tracking/movement-reducer.service.ts:101-115 | IN_CUSTODY is exactly what a pickup event leaves; VOID holds exactly when custody is CANCELLED |
| CustodyEvents.PickedUpExactly | src/modules/tracking/movement-reducer.service.ts:101-113 | in every reachable state a pickup event takes the shipment into custody if and only if its pickup was pending or scheduled or its cancellation requested, and changes nothing else and nothing otherwise |
| CustodyEvents.PickupBeatsCancellation | src/modules/booking/cancellation.service.ts:166-190 | after a pickup event, whatever a cancellation in flight is answered and whatever else happens, the shipment stays confirmed in custody; no cancellation voids it, answers `cancelled`, reverses or credits |
| CustodyEvents.RequestedExactly | src/modules/booking/cancellation.service.ts:55-101 | a cancellation is passed on if and only if the pickup is pending or scheduled; the call remembers which |
| CustodyEvents.AnsweredExactly | src/modules/booking/cancellation.service.ts:103-334 | what each answer of the courier leaves: voided with the collectible freed exactly when accepted before any pickup; put back where it was when refused before any pickup; unchanged otherwise |
| CustodyEvents.ReversedExactly | src/modules/booking/cancellation.service.ts:205-249 | after voiding, the REVERSAL and then the overage reversal run once each, unless the shipment is a test or no subscription is found |
| CustodyEvents.PickupBookedExactly | src/modules/booking-ops/pickup.service.ts:178-346 | booking a pickup and taking it back move between pending and scheduled, and touch nothing else |
| BookingTheorems.CancelledIsVoid | src/modules/booking/cancellation.service.ts:156-249 | an answer `cancelled: true` means VOID for good; at most one cancellation is under way; the ledger reversal is attempted at most once |
| BookingTheorems.LedgerSafety | migrations/0002_week1_foundation.js:201-215 | at most one DEBIT and one REVERSAL; DEBIT only for a confirmed live shipment, REVERSAL only for a VOID one; entries stay |
| BookingTheorems.ConfirmedOnce | src/modules/booking/booking-worker.service.ts:355-386 | the CONFIRMED write commits exactly once for a landed shipment, never otherwise |
| BookingTheorems.ServicesRefineRowGuard | migrations/0009_is_test_set_at_booking.js:11-34 | no reachable write of any service is refused by the row guard, and a claimed shipment has the snapshot of its intent |
| RowTriggers.RefusesExactly | migrations/0009_is_test_set_at_booking.js:11-34 | exactly which UPDATEs the two triggers refuse |
| RowTriggers.AnyWriter | migrations/0009_is_test_set_at_booking.js:11-34 | over any sequence of accepted UPDATEs by any writer: a test shipment stays one, and snapshot, is_test and working values change only through the transitions allowed for them |
| BookingTheorems.SnapshotOncePerIntent | src/modules/booking/booking.service.ts:738-773 | the snapshot is the latest attempt's and changes only with a new one; is_test is false before and constant after landing |
| BookingTheorems.FrozenRequest | src/modules/booking/booking-worker.service.ts:163-191 | every create ever sent is built from what its intent froze, and the digest recomputed over it is the stored one |
| SentRequests.SentIsFrozen | src/modules/booking/booking-worker.service.ts:163-191 | field by field, every create ever sent names the recipient, parcel, mode, amount and pickup location its attempt froze, with the code's defaults, under the attempt's reference; its digest is the sorted list of its own thirteen fields |
| SentRequests.SnapshotIsFrozen | src/modules/booking/booking.service.ts:620-773 | the snapshot column of a queued shipment holds, column by column, what its latest attempt froze, and is empty before |
| JobOutcomes.ReplySettles | src/modules/booking/booking-worker.service.ts:193-247 | in every reachable state, the rows each of the nine replies leaves: failed, unknown, confirmed, quarantined, or still claimed; and nothing beside the shipment changes |
| JobOutcomes.SendsExactly | src/modules/booking/booking-worker.service.ts:195-202 | a claimed job sends one create, the one it was claimed with, unless an outcome is recorded for its attempt |
| JobOutcomes.ClaimsExactly | src/modules/booking/booking-worker.service.ts:99-155 | exactly when a job can be claimed; every claim of an attempt builds the same create |
| JobOutcomes.QueuesExactly | src/modules/booking/booking.service.ts:278-778 | exactly when a booking is queued, what it appends, freezes and writes, which versions it seals; nothing changes otherwise |
| JobOutcomes.ResolvesExactly | src/modules/booking/booking-worker.service.ts:514-719 | a lookup of an unknown outcome ends RESOLVED_CONFIRMED, quarantined or RESOLVED_FAILED by what it found |
| JobOutcomes.DebitsExactly | src/modules/booking/booking-worker.service.ts:397-500 | after a confirmation the DEBIT is written and then the overage recorded, once each, unless the shipment is a test or no subscription is found |
| Interruptions.RestartedJobSendsAgain | src/modules/booking/booking-worker.service.ts:99-202 | wherever the worker of an unsettled job dies, the redelivered job is claimed again and sends the identical create |
| LedgerDebits.DebitExactly | src/modules/booking/booking-worker.service.ts:397-415 | over every run, a confirmed live shipment has its DEBIT if and only if no process is about to write it and no crash or missing subscription dropped it; no other shipment has one |
| LedgerDebits.ReversalWithoutDebitExactly | src/modules/booking/cancellation.service.ts:210-231 | a REVERSAL stands without a DEBIT exactly when the debit is still pending or was dropped |
| LedgerDebits.StepKeepsDebit | src/modules/booking/booking-worker.service.ts:397-415 | every step leaves the debit in exactly one of the three places, and only dropping steps drop it |
| LedgerGap.ReversalWithoutDebit | src/modules/booking/cancellation.service.ts:210-231 | all three ways occur: the worker died, found no subscription, or has not got there yet |
| BookingSafety.StepKeeps | src/modules/booking/booking-worker.service.ts:255-600 | every step, whatever the courier answers, keeps the invariant over all shipments and moves each only forward |
| BookingSafety.RunKeeps | src/modules/booking/booking-worker.service.ts:99-719 | the same for every run |
| BookingSafety.Lands | src/modules/booking/booking-worker.service.ts:292-376 | a shipment lands only by a confirmation that read no duplicate and, if it collects, no carrier |
| BookingInvariant.StepKeepsCell | src/modules/booking/booking-worker.service.ts:99-600 | each kind of step keeps the invariant of the shipment it works on |
| BookingEvolution.StepEvolves | src/modules/booking/cancellation.service.ts:55-334 | no step takes back an outcome, an AWB, a ledger entry, a counter, or changes a VOID or collected row |
| RecordInvariant.QueueKeeps | src/modules/booking/booking.service.ts:675-778 | queueing freezes one more attempt and touches no earlier one; it passes the row guard |
| RecordInvariant.ClaimKeeps | src/modules/booking/booking-worker.service.ts:131-148 | a claim only ever takes the latest intent, with its snapshot in place |
| RecordInvariant.ConfirmKeeps | src/modules/booking/booking-worker.service.ts:279-386 | confirmation and quarantine settle the latest intent in step with the state |
| RecordInvariant.SettleFailedKeeps | src/modules/booking/booking-worker.service.ts:514-560 | failing settles the latest intent and changes nothing else |
| RecordInvariant.MarkUnknownKeeps | src/modules/booking/booking-worker.service.ts:564-600 | marking unknown keeps the coupling of state and outcome |
| RecordInvariant.CustodyKeeps | src/modules/booking-ops/pickup.service.ts:180-186 | the custody updates touch CONFIRMED rows that are neither collected nor cancelled, and custody only |
| RecordInvariant.SettleCancelledKeeps | src/modules/booking/cancellation.service.ts:186-208 | voiding is never aborted and keeps intents and is_test |
| Collectible.AllOrNothing | migrations/0003_week3_orders_shipments.js:360-382 | over every run, an order's active AWBs collect nothing or exactly the outstanding amount, on one shipment |
| Collectible.QueueTxExactly | src/modules/booking/booking.service.ts:738-778 | a row in a queueable state can be queued if and only if it froze no amount or the order has no other carrier; only the collectible trigger refuses; beside a carrier it freezes nothing |
| Collectible.QueueAgainExactly | src/modules/booking/booking.service.ts:452-464 | the same in every state with the invariant: an attempt is appended exactly then, and otherwise nothing changes |
| Collectible.CanQueueExactly | migrations/0003_week3_orders_shipments.js:360-382 | in columns: which rows that is, in every reachable state |
| Collectible.OvertakenIsStuck | migrations/0003_week3_orders_shipments.js:360-382 | a sibling that froze the amount too is changed by no step of any run while the carrier is active |
| Collectible.BothSiblingsFreeze | src/modules/booking/booking.service.ts:452-464 | two siblings can both freeze the full amount before either is confirmed |
| Collectible.CancellationFrees | src/modules/booking/cancellation.service.ts:193-208 | voiding the carrier lets any sibling freeze the full amount again |
| Collectible.RunKeepsWhole | src/modules/booking/booking.service.ts:452-464 | every attempt of every run froze the whole outstanding or nothing |
| SealedVersions.SnapshotsSealed | src/modules/booking/booking.service.ts:713-736 | with serialised bookings every version row a snapshot refers to is sealed and holds the frozen columns |
| SealedVersions.SealedExactlyWhenCurrent | src/modules/booking/booking.service.ts:429-439 | a booking's rows are sealed as frozen if and only if it had read current rows; an edited one never matches again |
| SealedVersions.SealedForever | migrations/0006_courier_and_rate_cards.js:294-315 | a sealed row is neither changed nor deleted by any run |
| SealedVersions.WritesExactly | migrations/0006_courier_and_rate_cards.js:294-315 | a version row can be written or deleted exactly as long as no booking has sealed it |
| BookingLocking.InterleavingRefinesAtomic | src/modules/booking/booking-worker.service.ts:270-386 | every interleaving of locks, checks, writes and commits ends in the state of an atomic run, so AWBs are unique and an order has one carrier |
| BookingLocking.CommitReadsHold | src/modules/booking/booking-worker.service.ts:286-300 | what a committing transaction read under its locks is what the atomic step asks for |
| BookingLocking.OthersKeepTx | src/modules/booking/booking-worker.service.ts:286-300 | commits of others leave an open transaction's reads valid |
| UnlockedClash.UnlockedReadsClash | src/modules/booking/booking-worker.service.ts:286-300 | a reachable state in which two confirmations both read, truly, that no shipment has their AWB, and their two commits store it twice |
| SerialTransactions.SerialTransactionCommits | src/modules/booking/booking-worker.service.ts:270-386 | with no other transaction open, every transaction gets its locks and commits the atomic step with the true answers, and leaves no lock |
| SerialTransactions.WaitsExactly | src/modules/booking/booking-worker.service.ts:286-300 | a lock waits exactly for another open transaction on the same account and AWB, or the same order |
| BookingServices.Database.QueueBooking | src/modules/booking/booking.service.ts:278-778 | statements, seals and rollback amount to the queueing transaction; result codes |
| BookingServices.Database.ClaimJob | src/modules/booking/booking-worker.service.ts:99-155 | the claim transaction |
| BookingServices.Database.ConfirmBooking | src/modules/booking/booking-worker.service.ts:255-390 | the confirming transaction, quarantine included; result codes |
| BookingServices.Database.SettleFailed | src/modules/booking/booking-worker.service.ts:514-545 | the failing transaction: the intent is settled only if the row was hit |
| BookingServices.Database.MarkOutcomeUnknown | src/modules/booking/booking-worker.service.ts:564-585 | the marking transaction |
| BookingServices.Database.ProcessBooking | src/modules/booking/booking-worker.service.ts:99-247 | goes on exactly when the claim commits; the tables then end as `JobEnd` says, which the JobAnswers rows spell out; memo and requests are as a create under the intent id says, and untouched if the call is refused on its way |
| JobAnswers.AnsweredJob | src/modules/booking/booking-worker.service.ts:193-247 | from the response that settles the call to the rows: timeout, lost body and creation without an AWB leave the outcome unknown; declined, provider errors and a second 401 fail it; 429 leaves it claimed; an AWB confirms it or quarantines it |
| JobAnswers.TokenlessJob | src/modules/amazon_shipping/amazon_shipping.adapter.ts:237-275 | the same where no token could be had, at first or after a 401 |
| JobAnswers.RefusedJob | src/modules/courier-framework/adapter-caller.service.ts:67-113 | the same where the call is refused on its way or its result cannot be noted |
| JobAnswers.RememberedJob | src/modules/bluedart/bluedart.adapter.ts:403-420 | a redelivered job settles the outcome recorded for its intent |
| JobAnswers.BlockedJob | migrations/0003_week3_orders_shipments.js:360-382 | with the amount frozen and another carrier active, a redelivered job leaves the tables as they are, whatever the courier did |
| BookingServices.Database.SettleAnswer | src/modules/booking/booking-worker.service.ts:227-247 | the second transaction for each of the three answers |
| BookingServices.Database.RequestCancellation | src/modules/booking/cancellation.service.ts:55-101 | the request transaction and its refusals |
| BookingServices.Database.SettleCancellation | src/modules/booking/cancellation.service.ts:156-334 | the three verdicts: voided, put back, or left alone |
| BookingServices.SerialReadsHold | src/modules/booking/booking-worker.service.ts:292-300 | what a serial transaction reads is admissible for the protocol's step |
| BookingServices.ReadsMean | src/modules/booking/booking-worker.service.ts:292-300 | in columns: whose AWB quarantines a confirmation, and whose collectible stops a write |
| BookingSnapshot.ReferenceInjective | src/modules/booking/snapshot.ts:39-42 | the printed reference determines shipment and attempt |
| BookingSnapshot.NormalizeIdempotent | src/modules/booking/snapshot.ts:27-29 | normalising an AWB twice is normalising it once |
| AwbNumbers.NormalizeKeeps | src/modules/booking/snapshot.ts:27-29 | exactly spaces and hyphens go, the rest stays in order, every letter a-z as its capital |
| AwbNumbers.SameNumber | src/modules/booking/snapshot.ts:27-29 | two numbers are one after normalising if and only if they agree once separators are dropped and case is ignored |
| BookingSnapshot.CanonicalOrderFree | src/modules/booking/snapshot.ts:49-66 | the digest does not depend on the order of keys |
| BookingSnapshot.SentDigestIsQueuedDigest | src/modules/booking/booking.service.ts:686-700 | the digest over what the worker sends is the digest stored when the booking was queued |
| OverageTheorems.Conservation | src/modules/billing/overage.service.ts:109-410 | under every interleaving: one outcome per shipment, one submission per record, at most one credit per record, exact and of a charged one, a total never below zero |
| OverageTheorems.CreditedExactly | src/modules/billing/overage.service.ts:303-410 | once a shipment's reversal is over, its record has its credit if and only if the reversal read it SUBMITTED or ACCEPTED and did not crash |
| OverageTheorems.SentWithoutCreditExactly | src/modules/billing/overage.service.ts:324-345 | a record sent to Shopify ends without a credit exactly when the reversal ran before the insert, read it PENDING (unstamped or stamped) or REJECTED, or crashed; what became of it in each case |
| OverageTheorems.ChargedWithoutCreditExactly | src/modules/billing/overage.service.ts:324-392 | a charge that stands lacks its credit exactly when the reversal ran before the insert, read it before its stamp, or crashed |
| OverageTheorems.LedgerOnlyGrows | src/modules/billing/overage.service.ts:144-170 | records, credits and what reversals read stay; a consumed credit keeps its consumer; final states are final but for the two overwriting UPDATEs, named exactly |
| OverageTheorems.CrashLosesCredit | src/modules/billing/overage.service.ts:228-240 | a crash between the Shopify call and the stamp loses the credit with no overlap |
| OverageTheorems.OverlapLosesCredit | src/modules/billing/overage.service.ts:324-345 | a reversal that reads the record while the charge is on its way loses the credit |
| OverageTheorems.EarlyReversalLosesCredit | src/modules/billing/overage.service.ts:310-320 | a reversal that runs before the insert loses the credit |
| OverageTheorems.ReversalCrashLosesCredit | src/modules/billing/overage.service.ts:375-405 | a reversal that reads the charge and dies before its INSERT loses the credit |
| OverageCap.CapBound | src/modules/billing/overage.service.ts:172-211 | with at most k calls between query and INSERT, a cycle's counted charges stay within the cap, k - 1 units and a unit for each REVERSED record an answer revived |
| OverageCap.CapBoundsRows | src/modules/billing/overage.service.ts:175-194 | the same bound on the number of PENDING, SUBMITTED and ACCEPTED rows of a cycle, times the unit price |
| OverageCap.ChargedSinceCounts | src/modules/billing/overage.service.ts:178-186 | the sum of the cap query is one unit for each such row |
| OverageCap.AcceptsExactly | src/modules/billing/overage.service.ts:412-452 | the sweep promotes SUBMITTED rows only, and leaves the sum as it is |
| OverageCap.BoundAttained | src/modules/billing/overage.service.ts:172-211 | for every number of calls past the query at once, the overshoot is reached |
| OverageCap.NeverRevived | src/modules/billing/overage.service.ts:228-240 | no record is revived where no reversal overlaps its shipment's recording |
| OverageInvariant.NextKeeps | src/modules/billing/overage.service.ts:109-454 | every move of disciplined callers keeps the invariant over records, credits, calls and reversals, whatever overlaps |
| OverageWithBooking.OverageConserved | src/modules/booking/cancellation.service.ts:210-231 | driven by booking and cancellation, conservation holds in every joint run; charges are of confirmed live shipments, credits of VOID ones |
| OverageWithBooking.JointIsBillable | src/modules/booking/cancellation.service.ts:210-249 | the billing half of a joint run is a run of disciplined callers, so the credit and cap theorems apply to it |
| OverageWithBooking.CallsAreDisciplined | src/modules/booking/booking-worker.service.ts:397-500 | the protocol starts at most one recording and one reversal per shipment |
| OverageWithBooking.BillingIsCalled | src/modules/booking/booking-worker.service.ts:397-500 | billing is called exactly after a DEBIT and after a REVERSAL, by whoever wrote it, and by no other step |
| OverageService.Service.RecordOverage | src/modules/billing/overage.service.ts:109-283 | the entry point is the corresponding sequence of machine moves; for each of the nine results the rows and credits it leaves, in literal columns |
| OverageService.Service.ReverseOverage | src/modules/billing/overage.service.ts:303-410 | the entry point is the corresponding sequence of machine moves; what it answers and leaves by the state of the newest record |
| OverageService.OldestUnconsumed | src/modules/billing/overage.service.ts:144-157 | the oldest credit not consumed, none only if all are |
| BulkBooking.Resumption | src/modules/booking-ops/bulk-booking.service.ts:247-301 | for every pattern of crashes and redeliveries: a duplicate-free prefix is recorded, counters count it, terminal covers all, SUCCEEDED exactly when nothing failed |
| BulkBooking.DeliverKeeps | src/modules/booking-ops/bulk-booking.service.ts:247-301 | a delivery loses no result and never reopens a terminal batch |
| BulkBooking.CleanDeliveryFinishes | src/modules/booking-ops/bulk-booking.service.ts:287-293 | a delivery without a crash finishes the batch |
| BulkBooking.DeliveryRecords | src/modules/booking-ops/bulk-booking.service.ts:262-293 | a delivery appends, for each order it gets through, what processing that order returned, counts the two kinds, and closes the batch exactly when it gets through the last one |
| BulkBooking.FirstDeliverySucceedsExactly | src/modules/booking-ops/bulk-booking.service.ts:287-293 | the one delivery of a new batch that meets no crash ends SUCCEEDED if and only if every order was queued, PARTIAL otherwise |
| BulkBooking.AdmittedExactly | src/modules/booking-ops/bulk-booking.service.ts:150-163 | a batch is created if and only if its list has between 1 and 1000 different non-empty ids; it starts queued with all counters zero |
| BulkBooking.BatchWorker.ProcessBatch | src/modules/booking-ops/bulk-booking.service.ts:247-305 | the loop with its done set and counters does what the delivery function says |
| BulkBooking.Distinct | src/modules/booking-ops/bulk-booking.service.ts:152 | the non-empty ids, each once |
| BulkBooking.DistinctInOrder | src/modules/booking-ops/bulk-booking.service.ts:152 | they stand in the order in which they first occur |
| BulkBooking.AdmittedBound | src/modules/booking-ops/bulk-booking.service.ts:85-98 | over every interleaving of admissions, refusals, releases and redeliveries, unreleased admitted batches exceed two by at most the surplus releases and what resets and expiry took off the counter; at most two with one release per batch and no expiry |
| BulkBooking.SlotNextKeeps | src/modules/booking-ops/bulk-booking.service.ts:85-98 | every Redis command keeps that account of the counter |
| BulkBooking.SurplusLetsIn | src/modules/booking-ops/bulk-booking.service.ts:302-304 | a reachable run with k surplus releases and 2 + k batches at once, for every k; three with one |
| BulkBooking.ResetLetsInMore | src/modules/booking-ops/bulk-booking.service.ts:95-98 | a reachable run with one surplus release and five batches at once, by admissions between DECR and SET |
| BulkBooking.ExpiryLetsInMore | src/modules/booking-ops/bulk-booking.service.ts:85-93 | a reachable run with no surplus release and four batches at once, by one expiry of the key |
| CourierAdapter.Adapter.CreateShipment | src/modules/amazon_shipping/amazon_shipping.adapter.ts:416-484 | a recorded intent is answered from the memo and nothing is sent; otherwise the outcome is recorded unless auth, rate limit or a lost body is thrown |
| CourierAdapter.Adapter.AuthedRequest | src/modules/amazon_shipping/amazon_shipping.adapter.ts:315-356 | the loop sends what the recursive call of the other adapter sends |
| CourierAdapter.CallSendsOnce | src/modules/bluedart/bluedart.adapter.ts:254-313 | at most two sends, the second only after a 401, at most the last may have created anything; its outcome is recorded unless its body is lost |
| CourierAdapter.CreatesOnce | src/modules/bluedart/bluedart.adapter.ts:403-468 | over every sequence of creates, per intent and process at most one create that may have taken effect besides those whose body was lost, and then its outcome is recorded |
| CourierAdapter.CreateKeeps | src/modules/bluedart/bluedart.adapter.ts:403-468 | one create keeps that account |
| CourierAdapter.LostBodyResends | src/modules/amazon_shipping/amazon_shipping.adapter.ts:387-394 | a lost body can have an intent created twice, and nothing else can |
| CourierAdapter.MemoAgrees | src/modules/booking/booking-worker.service.ts:193-227 | exactly the recorded outcomes are memoised in the protocol; only a rate limit, which created nothing, requeues the job; a lost body leaves the attempt unknown |
| CourierAdapter.UnsentReplies | src/modules/courier-framework/adapter-caller.service.ts:67-113 | a refused call, and a create that sent nothing because its login failed, give only replies the protocol allows before sending; nothing is sent exactly when no token was held and none was got |
| Pdf.ReadBack | src/modules/booking-ops/pdf.ts:30-83 | for every list of lines, reading the file from its end gives the lines back, unprintable units replaced |
| Pdf.LinesArePlaced | src/modules/booking-ops/pdf.ts:38-51 | the i-th line stands 20 units times i below the first, each printable character itself and every other unit a question mark |
| Pdf.FileIsSound | src/modules/booking-ops/pdf.ts:54-83 | xref entries are 20 bytes and land on their objects, startxref lands on the table, /Length is the stream's size |
| Pdf.EscapeIsOnePass | src/modules/booking-ops/pdf.ts:30-36 | the three successive replacements are one pass |
| Pdf.LiteralRoundTrip | src/modules/booking-ops/pdf.ts:30-36 | reading a literal string undoes escaping |
| Pdf.ContentStream | src/modules/booking-ops/pdf.ts:38-51 | the loop over lines joins the parts of the stream |
| Pdf.BuildSinglePagePdf | src/modules/booking-ops/pdf.ts:54-83 | the loops over objects and offsets build the file |
| Money.ParseOfPrint | src/common/money.ts:24-45 | parsing what was printed gives the amount, negatives included |
| Money.ParseIsExact | src/common/money.ts:24-37 | a text parses to an amount if and only if it is a numeral of at most four decimals that denotes exactly that many hundredths |
| Money.PrintOfParse | src/common/money.ts:24-45 | printing what was parsed gives the text exactly when the text is canonical |
| Money.DivRoundHalfUpIsNearest | src/common/money.ts:58-64 | the quotient is the one within half a unit, ties upward |
| Money.TotalWithinHalfPaisePerComponent | src/common/money.ts:71-78 | a sum of n rounded components is within n/2 paise of the exact total |
| Money.CeilDivIsLeast | src/common/money.ts:81-85 | the least multiple that covers the dividend |
| ProviderAmounts.TextAmountIsHalfUp | src/modules/bluedart/bluedart-api.map.ts:150-157 | a text amount is rounded half-up on its magnitude |
| ProviderAmounts.AmountIsHalfUp | src/modules/bluedart/bluedart-api.map.ts:141-160 | a text is an amount if and only if it is a numeral; the paise are its magnitude rounded half-up with its sign |
| ProviderAmounts.UnitsOfPrinted | src/modules/bluedart/bluedart-api.map.ts:125-138 | reading units from printed paise gives the paise |
| ProviderAmounts.ParseQuoteCharges | src/modules/bluedart/bluedart-api.map.ts:345-362 | the loop keeps the first amount of each distinct code, and the printed total is their sum |
| ProviderAmounts.ChargesInOrder | src/modules/bluedart/bluedart-api.map.ts:325-362 | freight, fuel, cash on delivery and tax in this order, where they parse; gstAmount only where serviceTax does not parse |

## Left out

- Controllers, guards, DTOs, module wiring, queue and Redis configuration, Shopify GraphQL, JSON narrowing: plumbing.
- Rate engine, weight computation, rule routing and eligibility checks: a booking attempt starts from their results;
  an early exit of `queueBooking` before any write is the same as not calling it.
- Audit rows, the quote row, `dlq_item`, cost basis, confirmed charge, `version` counters: written beside the modelled
  columns and read by none of the modelled guards (the optional `expectedVersion` check only refuses more).
- Snapshot fields that are only copied through; the model keeps those that feed the digest and the create request.
- SHA-256 and JSON text: the digest is the canonical list of entries that is serialised and hashed.
- Postgres rendering of amounts inside the digest: amounts print with two decimals on both sides.
- Upper-casing outside ASCII in `normalizeAwb`; collisions of hashed advisory keys, which only add waiting.
- The movement machine of tracking: a PICKED_UP event that it ignores, after a terminal movement, is no pickup here.
- The redaction job's snapshot update and other administrative writers of shipment rows.
- `Math.round(value * 100)` on provider numbers and the precision of JavaScript numbers in provider amounts: texts
  and exact integers only; `rateToMillionths` and `defaultCappedAmountRupees`.
- Retries that run out, a cancellation left CANCEL_REQUESTED and other progress questions: safety only.
- Child rows of sealed versions; own columns only.
- Two deliveries of one bulk job writing the batch row at the same time: deliveries follow one another in the row
  model, though their releases of the slot interleave in any way.
- The reconciliation loop over subscriptions: one row's promotion to ACCEPTED is a move of the machine. One subscription
  at a time; a plan's unit price and cap do not change during a run.
- Concurrent `createShipment` calls for one intent in one process, token caches shared between processes, and the
  coalescing of refreshes: the worker's job id excludes the first, the others do not affect what is sent.
- `auto-ship` and pickup grouping loops: they call the modelled operations and would add easy members.
- Octal escapes in the PDF reader, and pages beyond the one the writer builds.
- JobOutcomes.RoutesExactly: one step stands for order derivation and for the routing result NEEDS_MANUAL_ASSIGNMENT,
  and may also return a row to DRAFT, which the code does only when it queues; the protocol's runs are a superset.
- BookingServices.Database.ConfirmBooking: requires that the job's intent exists, because a job is enqueued with the
  id of an intent already inserted.
- OverageTheorems.Conservation: assumes one recording and one reversal call per shipment, which OverageWithBooking
  derives from the booking machine; it assumes nothing about how they overlap.
- RetryExactly.RetryExactly: assumes that some shipment id is unused, so that a continuation can add a shipment.
- OverageTheorems.ShopifyTotal: sums the charges by row state, a lower bound of what Shopify charged; a record sent
  and then marked REVERSED is not in it.
