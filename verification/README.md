# Companion-ride platform: a verified model of its transaction protocols

Students publish a travel demand, meet in groups of at most four seats, confirm a round together, pay 99 fen each and
only then see each other's contacts; if anything goes wrong after payment started, everybody who paid is refunded and
the group recovers. This project states that protocol as a state machine over the database rows, writes the services
and workers as methods that update those rows in the order the TypeScript does, and proves what every run keeps. Beside
it stand the other stateful protocols of the repository (deletion of verification material, idempotent execution) and
four smaller algorithms.

`dafny verify dfyconfig.toml` checks everything.

## How the project is laid out

| files | content |
|---|---|
| `Wrappers`, `Sums` | outcomes, cardinalities, sums of columns |
| `GroupingRules`, `Tables` | the domain rules and the rows; nesting stands for the unique keys of the schema |
| `Formation`, `Payment` | what one transaction of the grouping and payment services and of both workers does to the rows |
| `Invariants` | the invariant tying group, round, membership, order, refund and unlock together |
| `FormationProofs`, `PaymentProofs`, `RefundProofs`, `BookProofs` | each transaction keeps it |
| `Runs`, `Safety`, `Progress` | the state machine of all steps, workers and crashes; what every step keeps; what only moves forward |
| `Theorems`, `Memberships`, `Preferences`, `Causes`, `Money`, `Contacts` | the promises over whole runs |
| `Outcomes`, `FormationOutcomes`, `JoinOutcomes`, `RoundOutcomes`, `PaymentOutcomes`, `Refusals` | for every request and deadline: exactly when it succeeds and what it achieves, in terms of the rows; which failing condition a refusal reports |
| `Recovery`, `Liveness`, `Stranding` | how refunds end, exactly when they can, and what becomes of a round whose group went on without it |
| `TripRun`, `DeliveredRun` | a trip from the first demand to the payments; its delivery, a contact read and a withdrawal |
| `Uncoupling`, `StuckRounds` | the runs that separate a group from its round and that leave a round refunding for ever, one for each cause |
| `Store`, `GroupingService`, `PaymentsService`, `PaymentRefund`, `PaymentDeadlines`, `RefundSettlement`, `RefundSweeps`, `FormationTimeout` | the services and workers in imperative form, proved equal to the steps, and their sweeps |
| `GroupPages` | filtered pagination |
| `AssetDeletion`, `MaterialSafety`, `LiveRows`, `ForgottenObjects`, `DraftFates`, `MaterialOutcomes`, `MaterialServices` | verification material: state machine, promises and where they fail, what each request achieves, loops |
| `Idempotency`, `IdempotentReplies`, `CanonicalJson`, `Numerals` | exactly-once execution, how a repeated request is answered, the text that identifies a request, and its numbers |
| `RouteWindows`, `Base32` | the window generator against the recogniser; base32 with a wrapping accumulator |

A step that fails is an aborted transaction and changes nothing. A refund is split into its three transactions (claim,
gateway call and finish or restore), any number of workers run at once, and a worker may crash between any two of them.

## What was found

* **A join can separate a group from its round.** `joinGroup` moves an ended membership row and then tallies the group it
  left in whatever state that group is. From a state in which all groups agree with their rounds, a successful step
  breaks the agreement if and only if it is a join whose row leaves a locked group (`Safety.StepCoupling`). The round is
  then adrift for ever: no step of any later run moves it or opens another one (`Stranding.AdriftForever`).
  `Uncoupling.JoinCanUncouple` gives a run of nine successful requests that ends so. Delivery, money and membership
  promises hold without that hypothesis; only the ones that say so need it.
* **Some compensated rounds never end.** `Liveness.RecoverableIff` states exactly when a refunding round can still end: not
  if it is adrift, not if nobody had paid, and not if a worker crashed after claiming one of its refunds or paid one back
  too early to record it. `StuckRounds` has a run from empty tables to each of these four.
* **A sweep strands the refunds it requests.** It takes its time once, when it starts, and passes it on as the time at which
  a refund was completed (`payment-refund.ts:265-279`, `241-249`). The refunds that its own first loop requests are written
  later (`134-144`), and the schema refuses to complete a refund before it was requested
  (`Refund_lifecycle_check`, `migration.sql:1106`). So the ordinary way of a missed payment deadline ends with the gateway
  having paid, nothing recorded, the sweep aborted and the round refunding for ever: an uninterrupted settlement whose
  gateway call succeeds is recorded if and only if the refund was requested by the time the sweep began
  (`PaymentRefundWorker.SettleRefund`), a sweep that lists every requested refund throws exactly if the gateway is up for one
  requested later (`RefundSweeps.SweepThrows`), and `StuckRounds.SweepStrandsItsOwnRefund` is a run of fourteen steps.
* **A late resubmission puts a deadline on material that is under review.** `docs/verification/m2-invariants.md` promises
  that submitted material has no deletion deadline while its verification is reviewable. `submit` first looks at the upload
  credential and, when it has expired, sets the deadline of every live asset whatever the status. For one sweeper, or
  several with prompt requests, this is the one step that breaks the promise (`MaterialSafety.StepSafe`);
  `MaterialSafety.LateExpiryDeletesNeededMaterial` is a run that ends with the material of a PENDING verification deleted.
* **A submission can leave a row behind.** A submission read while one of its rows is claimed for deletion leaves that row
  out, and the row is live again once its worker gives up. With several sweepers another worker may then still be about to
  delete its object (`LiveRows.LeftoverRowNamed`); the release beside an overtaken worker is the only step that leads there
  (`LiveRows.StepNamesNoLiveRow`). The row is never submitted material, which stays safe.
* **Some uploads are never deleted.** An upload with a superseded grant ends up forgotten exactly if no undeleted row and no
  pending delete event has its key, or if its object has just been erased and the row or event is about to be recorded as
  done (`ForgottenObjects.UploadForgotten`). What is forgotten stays in the store for ever
  (`ForgottenObjects.ForgottenForever`); `ForgottenObjects.ReuploadIsForgotten` is a run with one sweeper that ends so.
* **A draft not submitted before its material is deleted is a dead end.** `docs/domain/model.md` lets a user start again
  from AWAITING_UPLOAD and returns an expired resubmission to REQUIRE_RESUBMISSION. The code refuses the former; for the
  latter it writes UPLOAD_EXPIRED, which the schema's CHECK refuses, so that the transaction is aborted and the resubmission
  goes on waiting. A draft can still come under review if and only if it waits for uploads and some row of it is undeleted
  (`DraftFates.DraftLeadsOn`); requests that begin from now on can bring it there if and only if such a row has not expired
  either (`DraftFates.DraftLeadsOnFromNow`). `DraftFates.UnusedDraftDies` is a run to a dead draft.

## Model

| member | source | states |
|---|---|---|
| `GroupingRules.SummarizeGroupingMembers` | packages/domain/src/index.ts:81-101 | succeeds exactly on lists of distinct users with one to three seats each and at most four in all, and then counts them |
| `GroupingRules.CompatibleIsSymmetric` | packages/domain/src/index.ts:103-109 | the preference check against the first member is symmetric between any two members |
| `GroupingRules.AssertFormationReady` | packages/domain/src/index.ts:111-120 | succeeds exactly on an admissible, compatible list of two or more, and reports incompatibility only when that is the fault |
| `Tables.ListedFits` | apps/api/src/grouping/grouping.service.ts:963-976 | the tally of a group does not depend on the order in which its rows are read |
| `Safety.StepInv` | apps/worker/src/payment-refund.ts:66-347 | every step of every request and worker, from any consistent state, leaves a consistent state |
| `Safety.RunInv` | apps/api/src/grouping/grouping.service.ts:103-848 | the invariant holds in every state any run reaches from empty tables |
| `Safety.StepCoupling` | apps/api/src/grouping/grouping.service.ts:428-446 | from coupled tables, a step uncouples a group from its rounds if and only if it is a successful join out of a locked group |
| `Safety.RunCoupling` | apps/api/src/grouping/grouping.service.ts:963-976 | groups and rounds stay coupled over any run without such a join |
| `Uncoupling.JoinCanUncouple` | apps/api/src/grouping/grouping.service.ts:428-446 | the hypothesis is needed: a run of nine requests, each of them successful, leaves a READY group with a CONFIRMING round that no confirmation, timeout or start can move, and no further run changes that |
| `Progress.RunForward` | apps/api/src/payments/payments.service.ts:505-577 | over any run snapshots, policies, deadlines and decisions never change, orders, refunds and rounds only advance, and finished rounds are final |
| `Theorems.DeliveryAllOrNothing` | apps/api/src/payments/payments.service.ts:478-578 | in every reachable state the unlocks of a round are none or all ordered pairs of its snapshot, all exactly when it is delivered, and then every member accepted, consented and holds one delivered 99-fen order |
| `Theorems.DeliveryIsFinal` | apps/api/src/payments/payments.service.ts:540-578 | no later step changes the unlocks, orders, decisions or snapshot of a delivered round |
| `PaymentOutcomes.PaymentOutcome` | apps/api/src/payments/payments.service.ts:227-296 | a payment succeeds exactly with the matching intent for an open order in time, or a paid one; the last one delivers everything to everybody if nobody has withdrawn and all can be reached, and otherwise gives everything back; any other charges its order and nothing else |
| `DeliveredRun.PairDelivers` | apps/api/src/payments/payments.service.ts:505-577 | twelve steps from empty tables deliver a round to two users; the next read discloses the other member, and is refused after the other's withdrawal |
| `PaymentOutcomes.OrderOutcome` | apps/api/src/payments/payments.service.ts:112-158 | an order is given exactly to an eligible member who owes, while the round collects and in time: once, for 99 fen, due at the round's deadline |
| `PaymentOutcomes.PrepayOutcome` | apps/api/src/payments/payments.service.ts:172-225 | a payment is prepared exactly for the payer's own unpaid order in time |
| `PaymentOutcomes.RevocationOutcome` | apps/api/src/payments/payments.service.ts:298-333 | a revocation is accepted exactly from a present or former member; it withdraws that one consent whatever the state of the round, refunds a round that collects, and otherwise changes nothing else |
| `PaymentOutcomes.DeadlineOutcome` | apps/worker/src/payment-refund.ts:66-161 | a payment deadline takes effect exactly when it has passed and group and round collect: paid orders are refunded in full, others closed, debtors timed out and their demands open, all consents withdrawn |
| `Theorems.SnapshotExact` | apps/api/src/grouping/grouping.service.ts:721-723 | no decision is recorded and nothing is unlocked while the active members differ from the snapshot |
| `Theorems.GroupAndRoundAgree` | apps/api/src/grouping/grouping.service.ts:812-829 | without a join out of a locked group: group and last round are CONFIRMING, PAYING, REFUNDING or delivered together, earlier rounds are invalidated, members hold only the statuses of that state, and the acceptance count reaches the snapshot size exactly on unanimity |
| `Causes.DecisionsHaveCauses` | apps/api/src/grouping/grouping.service.ts:704-840 | a decision appears only through a confirmation: one decision, by a snapshot member without one, in time, with all members eligible and the round's policy |
| `Causes.ChargesHaveCauses` | apps/api/src/payments/payments.service.ts:227-296 | an order is charged only by its user's payment with the matching intent, while it is open and in time |
| `Causes.DeliveriesHaveCauses` | apps/api/src/payments/payments.service.ts:505-535 | contacts are unlocked only by the payment that completes the round, all others paid, no consent withdrawn, all members verified and with a contact |
| `Causes.RoundsHaveCauses` | apps/api/src/grouping/grouping.service.ts:531-634 | a round is opened only by a member's start of a READY, eligible, compatible group without an open round, with a deadline before the trip and a snapshot of exactly the active members |
| `Causes.MembershipsHaveCauses` | apps/api/src/grouping/grouping.service.ts:308-472 | an existing group gains a member only by that user's own join for the same route and window, while it recruits and everybody in it is eligible |
| `FormationOutcomes.DemandOutcome` | apps/api/src/grouping/grouping.service.ts:103-174 | a demand is accepted exactly from an eligible user, free at the time, for an enabled future window and one to three seats; it is stored with the requested user, route, window, seats and preference, grouped alone in a new group, and nothing else changes |
| `FormationOutcomes.CancelOutcome` | apps/api/src/grouping/grouping.service.ts:203-259 | a cancellation succeeds exactly for the user's own unexpired demand while its group recruits; the demand is cancelled, its membership left, its group tallied, and nothing else changes |
| `FormationOutcomes.LeaveOutcome` | apps/api/src/grouping/grouping.service.ts:474-529 | a member may leave exactly while the group recruits and somebody stays; the caller's own membership is left and its demand open again |
| `JoinOutcomes.JoinOutcome` | apps/api/src/grouping/grouping.service.ts:308-472 | a join succeeds exactly for the user's own demand for the trip, open or alone in a recruiting group, into a recruiting group of eligible members with seats left and no clash of preferences, so that in consistent tables the search for overlapping memberships refuses exactly users who are not alone elsewhere; the row moves and both groups are tallied |
| `RoundOutcomes.StartOutcome` | apps/api/src/grouping/grouping.service.ts:531-634 | a start succeeds exactly for a member of a READY, eligible, compatible group before the trip, under a current policy and with no round open; the new round has the members as they are, that policy, and five minutes or until the trip to confirm |
| `RoundOutcomes.ConfirmOutcome` | apps/api/src/grouping/grouping.service.ts:668-848 | a confirmation is accepted exactly in time, from an undecided eligible member, to the round's own policy; the last acceptance starts five minutes of paying from that moment, a refusal ends the round and its member's membership |
| `Refusals.DemandRefusals` | apps/api/src/grouping/grouping.service.ts:109-133 | STUDENT_NOT_VERIFIED, VALIDATION_ERROR and OVERLAPPING_ACTIVE_GROUP each report exactly their own condition |
| `Refusals.JoinRefusals` | apps/api/src/grouping/grouping.service.ts:358-427 | of an admitted join: OVERLAPPING_ACTIVE_GROUP exactly for a user who is not alone elsewhere, GROUP_CAPACITY_EXCEEDED exactly for lack of seats, GENDER_PREFERENCE_INCOMPATIBLE exactly for a clash |
| `Refusals.ConfirmRefusals` | apps/api/src/grouping/grouping.service.ts:668-760 | FORMATION_EXPIRED exactly after the deadline, CONTACT_CONSENT_VERSION_MISMATCH exactly for another policy |
| `Refusals.PaymentRefusals` | apps/api/src/payments/payments.service.ts:227-260 | RESOURCE_NOT_FOUND exactly without an order or the matching intent, PAYMENT_NOT_CONFIRMED exactly for an unpaid order that is late or closed |
| `Memberships.GroupedIffMember` | apps/api/src/grouping/grouping.service.ts:126-159 | a demand is GROUPED exactly while its one membership row is active, in a group for the same window and route |
| `Memberships.NoOverlappingMemberships` | apps/api/src/grouping/grouping.service.ts:939-961 | no user is active twice in one group or in two groups whose windows overlap |
| `Memberships.GroupsFit` | packages/domain/src/index.ts:81-101 | no group seats more than four or counts a user twice, and every tally of it succeeds |
| `Memberships.FormedGroupsHaveTwo` | apps/api/src/grouping/grouping.service.ts:531-634 | READY, CONFIRMING, PAYING and delivered groups have at least two different users |
| `Memberships.NeverThrows` | apps/api/src/grouping/grouping.service.ts:963-976 | from no reachable state does a tally, a compensation or a recovery throw; the one internal error is a start without a current policy |
| `Preferences.PreferencesHold` | packages/domain/src/index.ts:103-109 | in every reachable state, whoever asked for companions of the same gender is only ever grouped with them |
| `Preferences.RequestedForever` | apps/api/src/grouping/grouping.service.ts:126-159 | a demand keeps its user, route, window, seats and preference over any run |
| `Preferences.RequestedPreferencesHold` | apps/api/src/grouping/grouping.service.ts:136-136 | whoever asked for companions of the same gender when creating a demand is, in any later state, only grouped through it with users who declared the same gender |
| `Money.Conservation` | apps/api/src/payments/payments.service.ts:227-296 | succeeded payments minus refunds equals what is held for paid, delivered and refund-pending orders, at 99 fen each |
| `Money.GatewayConservation` | apps/worker/src/payment-refund.ts:173-263 | what the gateway paid back is what is recorded as refunded plus what a running or crashed worker has not recorded, and never exceeds what was charged |
| `Money.NoOpenOrderAfterPaying` | apps/api/src/payments/payments.service.ts:604-615 | no order stays CREATED or PAYING once its round has left PAYING |
| `Money.RefundedAtMostOnce` | apps/worker/src/payment-refund.ts:173-263 | for any interleaving of workers, failures and crashes the gateway refunds an order at most once, only if it was charged, and never before it is claimed |
| `Money.RefundedForever` | apps/worker/src/payment-refund.ts:241-259 | a REFUNDED refund never changes again and is never paid twice later |
| `Money.NoManualReview` | apps/worker/src/payment-refund.ts:195-208 | every requested refund passes the worker's check, so the review arm is dead |
| `Money.NoRefundRetry` | apps/worker/src/payment-refund.ts:349-363 | no group and no round ever enters REFUND_RETRY |
| `Money.RecoveryFindsMembers` | apps/worker/src/payment-refund.ts:315-323 | while a refund of a refunding group is pending its payer is an active member, so recovery finds one to four members |
| `Recovery.FinishSettles` | apps/worker/src/payment-refund.ts:241-262 | finishing a refund removes exactly its payer from the pending orders; the last one recovers the group, any other leaves it waiting |
| `Recovery.RecoveryConfluent` | apps/worker/src/payment-refund.ts:281-347 | interleave any workers, failures, crashes and other requests: while a refund is pending the group waits unchanged, and with the last it is recovered in the one possible way |
| `Recovery.OrderIrrelevant` | apps/worker/src/payment-refund.ts:266-279 | two runs that settle the same refunds in different orders end in the same group, up to withdrawn consents |
| `Recovery.RecoveredMembers` | apps/worker/src/payment-refund.ts:315-337 | recovery returns exactly the refunded payers to JOINED and sets the state the domain's tally gives them, RECRUITING or READY |
| `Liveness.NothingToRefund` | apps/worker/src/payment-refund.ts:121-145 | a compensated round in which nobody paid stays REFUNDING under every run |
| `Liveness.AbandonedForever` | apps/worker/src/payment-refund.ts:163-171 | a refund whose worker crashed after its claim, or paid it back too early to record it, stays pending, and its round REFUNDING, under every run |
| `Stranding.AdriftForever` | apps/api/src/grouping/grouping.service.ts:963-976 | an unfinished round whose group is not locked keeps its state under every run; no round is opened beside it and the group is never locked again |
| `Liveness.RecoverableIff` | apps/worker/src/payment-refund.ts:163-263 | any refunding round can still end if and only if its group is refunding with it, some refund is pending and none is abandoned |
| `StuckRounds.UnpaidRoundIsStuck` | apps/worker/src/payment-refund.ts:66-161 | a run of seven requests from empty tables compensates a round nobody paid for; the round is refunding without a pending refund, and no run ever ends it |
| `StuckRounds.CrashedRoundIsStuck` | apps/worker/src/payment-refund.ts:163-213 | a run of twelve steps ends with a worker crashed after its claim; the refund is abandoned, and no run ever ends its round |
| `StuckRounds.SweepStrandsItsOwnRefund` | packages/database/prisma/migrations/20260715000000_m1_final_state_candidate/migration.sql:1106 | a run of fourteen steps in which a sweep settles the refund it has just requested: the gateway pays, the record is refused, and no run ever ends the round |
| `StuckRounds.MovedMemberStrandsRound` | apps/api/src/grouping/grouping.service.ts:428-446 | a run of fifteen steps in which the member who did not pay joins another group while the first is refunding: the refund is paid back and recorded, yet its payer is still marked PAID, and no run ever ends the round |
| `Contacts.GrantIsExact` | apps/api/src/payments/payments.service.ts:371-421 | a read is granted exactly to a snapshot member of a delivered round with no consent withdrawn and all members reachable, and discloses exactly the other members; the stored unlocks and counts add nothing |
| `Contacts.ReadsAreLogged` | apps/api/src/payments/payments.service.ts:412-445 | a read of a group that has sold something writes exactly one row in the same step, GRANTED with the disclosed members if it may and DENIED otherwise; any other read fails; nothing else changes |
| `Contacts.RevocationClosesReads` | apps/api/src/payments/payments.service.ts:298-333 | once any member of a delivered round has withdrawn consent, no later read by anyone is granted, over any coupled run |
| `Contacts.RevocationRefusesReads` | apps/api/src/payments/payments.service.ts:298-333 | after an accepted revocation by a member of a delivered round, every later read of the group by anyone is answered by a logged refusal, over any coupled run |
| `GroupingServices.GroupingService.RecomputeRecruitableGroup` | apps/api/src/grouping/grouping.service.ts:963-976 | sets the state to the tally of the active rows, or fails without a write if they do not fit |
| `GroupingServices.GroupingService.CreateDemand` | apps/api/src/grouping/grouping.service.ts:103-174 | carries out exactly the creation step, its error included, and keeps the invariant |
| `GroupingServices.GroupingService.CancelDemand` | apps/api/src/grouping/grouping.service.ts:203-259 | carries out exactly the cancellation step and keeps the invariant |
| `GroupingServices.GroupingService.JoinGroup` | apps/api/src/grouping/grouping.service.ts:308-472 | carries out exactly the join step, rolled back on a failed tally, and keeps the invariant |
| `GroupingServices.GroupingService.LeaveGroup` | apps/api/src/grouping/grouping.service.ts:474-529 | carries out exactly the leave step and keeps the invariant |
| `GroupingServices.GroupingService.StartFormation` | apps/api/src/grouping/grouping.service.ts:531-634 | carries out exactly the start step and keeps the invariant |
| `GroupingServices.GroupingService.ConfirmFormation` | apps/api/src/grouping/grouping.service.ts:668-848 | carries out exactly the confirmation step, the recorded decision rolled back on a policy mismatch, and keeps the invariant |
| `PaymentsServices.PaymentsService.CreateOrder` | apps/api/src/payments/payments.service.ts:112-158 | carries out exactly the order step; repeating it returns the existing order unchanged |
| `PaymentsServices.PaymentsService.CreatePrepay` | apps/api/src/payments/payments.service.ts:172-225 | carries out exactly the prepay step |
| `PaymentsServices.PaymentsService.CompleteMockPayment` | apps/api/src/payments/payments.service.ts:227-296 | carries out exactly the payment step, with delivery or compensation, and keeps the invariant |
| `PaymentsServices.PaymentsService.DeliverIfComplete` | apps/api/src/payments/payments.service.ts:478-578 | its writes in sequence amount to one delivery, one compensation or nothing |
| `PaymentsServices.PaymentsService.BeginCompensation` | apps/api/src/payments/payments.service.ts:580-651 | its writes, the loop over paid orders included, close unpaid orders, time out unpaid members and request one refund per paid order |
| `PaymentsServices.PaymentsService.RevokeContactConsent` | apps/api/src/payments/payments.service.ts:298-333 | carries out exactly the revocation step and keeps the invariant |
| `PaymentsServices.PaymentsService.GetUnlockedContacts` | apps/api/src/payments/payments.service.ts:335-448 | answers as the read step does and appends one log row for every answer |
| `PaymentRefunds.PaymentRefundWorker.InvalidatePaymentRound` | apps/worker/src/payment-refund.ts:66-161 | reports a change exactly for a due paying round, carries out exactly the timeout step, never throws, and keeps the invariant with the gateway and the coupling |
| `PaymentRefunds.PaymentRefundWorker.ClaimRefund` | apps/worker/src/payment-refund.ts:173-213 | claims a requested refund or puts it up for review, as the step says |
| `PaymentRefunds.PaymentRefundWorker.FinishRefund` | apps/worker/src/payment-refund.ts:241-262 | records a refund and recovers the round as the step says; a completion before the request is refused, and nothing is written when that happens or recovery throws |
| `PaymentRefunds.PaymentRefundWorker.SettleRefund` | apps/worker/src/payment-refund.ts:173-263 | an uninterrupted settlement is its three steps; a gateway failure leaves no trace; a gateway success is paid once, and recorded if and only if the refund was requested by the given time, otherwise it throws and the refund is pending for ever |
| `RefundSettlement.SettlementMoves` | apps/worker/src/payment-refund.ts:173-263 | a settlement of a requested refund moves that refund alone: to REFUNDED, to a pending state nobody carries on, or not at all; no other refund, no time of a request and no paying round changes |
| `PaymentRefunds.PaymentRefundWorker.SettleListed` | apps/worker/src/payment-refund.ts:275-277 | over any list of requested refunds: ends at the first one that the gateway pays and that was requested after the given time, which gets stuck; those paid before it become REFUNDED, once each, and are counted; the others are requested again |
| `PaymentRefunds.PaymentRefundWorker.ListRequestedRefunds` | apps/worker/src/payment-refund.ts:163-171 | up to fifty requested refunds, in the order of their requests, and none left out was requested earlier |
| `PaymentRefunds.PaymentRefundWorker.RunPaymentRefundSweep` | apps/worker/src/payment-refund.ts:265-279 | takes only late rounds out of PAYING, on coupled tables every one of up to fifty; every refund requested before or for their paid orders is afterwards requested still, or recorded after one payment and requested in time, or the one that was paid and is stuck; it returns the exact counts if none is, and throws otherwise; if nothing got stuck and it saw them all, no refund that the gateway would pay is left |
| `RefundSweeps.SweepThrows` | apps/worker/src/payment-refund.ts:265-279 | a sweep that lists every requested refund throws if and only if the gateway is up for an order whose refund was requested after the sweep began, by somebody else or by itself |
| `FormationTimeout.FormationDeadlines.InvalidateConfirmationRound` | apps/worker/src/formation-timeout.ts:48-126 | reports a change exactly for a due confirming round and carries out exactly that step |
| `RoundOutcomes.LapseOutcome` | apps/worker/src/formation-timeout.ts:48-126 | a confirmation deadline takes effect exactly when it has passed and group and round still confirm: the round is over, consents are withdrawn, confirmed members are joined again |
| `FormationTimeout.FormationDeadlines.ExpireRecruitableGroup` | apps/worker/src/formation-timeout.ts:141-193 | reports a change exactly for a due recruitable group and carries out exactly that step |
| `RoundOutcomes.ExpiryOutcome` | apps/worker/src/formation-timeout.ts:141-193 | a group expires exactly when it recruits and its trip is over: its members are removed and their demands expire |
| `FormationTimeout.FormationDeadlines.RunFormationDeadlineSweep` | apps/worker/src/formation-timeout.ts:196-209 | on coupled tables the counts are exactly the rounds that became INVALIDATED, all of them due, and the groups past their window that became EXPIRED, fifty at most of each; twice the due rounds plus the due groups shrinks by at least as much |
| `FormationTimeout.FormationDeadlines.Drain` | apps/worker/src/formation-timeout.ts:196-209 | sweeps repeated at one instant until both counts are zero end, and leave no confirming round past its deadline and no recruiting group past its trip |
| `GroupPages.ListGroups` | apps/api/src/grouping/grouping.service.ts:261-297 | a page holds exactly the groups with free seats between its cursor and the next, which lies strictly further on; twenty of them, or fewer only at the end of the table or after 105 rows |
| `GroupPages.ListAll` | apps/api/src/grouping/grouping.service.ts:269-296 | following the cursors returns every group with free seats once and in order, and ends |
| `GroupPages.FreeRowsAre` | apps/api/src/grouping/grouping.service.ts:285-288 | the listed groups are exactly those with fewer than four seats taken |
| `MaterialSafety.StepSafe` | apps/api/src/verification/verification.service.ts:226-250 | from a safe state a step endangers submitted material if and only if it is the expiry of a submission made to a verification that is under review, with the uploads of all its live rows expired |
| `MaterialSafety.SubmittedMaterialSafe` | apps/worker/src/verification-asset-deletion.ts:56-94 | for one sweeper, or many and requests that commit within five minutes: submitted material of a reviewable verification has no deadline and no claim, and no worker or event names its key |
| `MaterialSafety.NeededObjectsStay` | apps/worker/src/verification-asset-deletion.ts:150-175 | no step takes the object of such material out of the store |
| `MaterialSafety.OneSweeperNamesNoLiveRow` | apps/worker/src/main.ts:31-45 | with one sweeper no worker in flight names the key of any live row, whatever else happens |
| `MaterialOutcomes.ReviewOutcome` | apps/api/src/admin/admin-verification.service.ts:118-144 | a review is accepted exactly for a pending verification; it ends VERIFIED exactly if approved, REJECTED exactly if rejected, REQUIRE_RESUBMISSION exactly if that was required, and its live rows are kept for one more day |
| `MaterialOutcomes.StatusHasCause` | apps/api/src/admin/admin-verification.service.ts:415-445 | a verification's status changes only along its life cycle, each change by its own kind of request |
| `MaterialOutcomes.VerifiedByApproval` | apps/api/src/admin/admin-verification.service.ts:424-430 | over any run, whoever is verified was approved while a submission was pending and has been verified since |
| `MaterialOutcomes.StudentIsVerified` | apps/api/src/admin/admin-verification.service.ts:424-430 | five steps from the empty state lead to a verified student, one more to an expired one |
| `MaterialOutcomes.CreateOutcome` | apps/api/src/verification/verification.service.ts:95-190 | a draft is created exactly without a verification or after a rejection or expiry, a resubmission exactly when required; either waits, with fifteen minutes for each upload, and the objects of all undeleted older rows are given up |
| `MaterialOutcomes.SubmitOutcome` | apps/api/src/verification/verification.service.ts:267-307 | a submission is recorded exactly if the live rows are those it read and the draft still waits; it is pending, or pending again, and its live rows lose their deadline |
| `MaterialOutcomes.ReadOutcome` | apps/api/src/verification/verification.service.ts:221-226 | a submission reads exactly the live rows, and has expired exactly if one of them has |
| `MaterialOutcomes.ExpireOutcome` | apps/api/src/verification/verification.service.ts:226-250 | an expired submission ends a first draft and puts its time as a deadline on every live row whatever the status; on a waiting resubmission it has no effect |
| `MaterialOutcomes.ClaimOutcome` | apps/worker/src/verification-asset-deletion.ts:56-72 | a row is claimed exactly when past its deadline, undeleted and not claimed within five minutes |
| `MaterialOutcomes.RecordOutcome` | apps/worker/src/verification-asset-deletion.ts:74-94 | a worker that still has its claim marks its row deleted or frees it; one that has lost it changes no row |
| `DraftFates.ExpiredDraftIsFinal` | apps/api/src/verification/verification.service.ts:587-591 | nothing ever moves a draft out of UPLOAD_EXPIRED |
| `DraftFates.DeadDraftIsFinal` | apps/api/src/verification/verification.service.ts:221-225 | a draft or resubmission whose material was deleted before it was submitted is never submitted and never replaced, over any run |
| `DraftFates.DraftLeadsOn` | apps/api/src/verification/verification.service.ts:221-310 | from any reachable state, a draft not yet submitted can still come under review if and only if it waits for uploads and some row of it is undeleted |
| `DraftFates.DraftLeadsOnFromNow` | apps/api/src/verification/verification.service.ts:226-250 | with no submission in time under way, requests that begin from now on can bring it under review if and only if it waits for uploads and an undeleted row of it has not expired |
| `DraftFates.UnusedDraftDies` | apps/worker/src/verification-asset-deletion.ts:165-175 | a run of five steps in which a sweep deletes the material of an unsubmitted draft, after which no run brings it under review |
| `LiveRows.StepNamesNoLiveRow` | apps/worker/src/verification-asset-deletion.ts:86-94 | submitted or not, a live row under review is named by no worker and no event, until a step endangers it: exactly the release of a claim while an overtaken worker still has the key |
| `LiveRows.LeftoverRowNamed` | apps/api/src/verification/verification.service.ts:267-307 | such rows exist: a run of prompt requests and two sweepers leaves an unsubmitted live row under review with a worker in flight that names it |
| `MaterialSafety.LateExpiryDeletesNeededMaterial` | apps/api/src/verification/verification.service.ts:226-250 | with one sweeper and no delay at all, a late second submission ends with the material of a PENDING verification deleted |
| `ForgottenObjects.StepComplete` | apps/worker/src/verification-asset-deletion.ts:150-175 | from a state in which every stored object is in the care of a row or an event, and nothing erased is stored, a step breaks this if and only if it is a stray upload |
| `ForgottenObjects.NoObjectForgotten` | apps/api/src/verification/verification.service.ts:425-487 | for any number of sweepers and over any run without stray uploads, every stored object is an undeleted row's or named by a delete event still to be handled |
| `ForgottenObjects.UploadForgotten` | apps/worker/src/verification-asset-deletion.ts:150-175 | with one sweeper, an upload can be followed by steps without uploads after which its object is forgotten if and only if the upload is stray: no row and no event has its key, or its erased row or event is about to be recorded |
| `ForgottenObjects.ForgottenForever` | apps/api/src/verification/verification.service.ts:425-487 | an object that no undeleted row, no pending event, no claiming worker and no sweeper with its event on the list has stays stored under every run |
| `ForgottenObjects.ReuploadIsForgotten` | apps/worker/src/verification-asset-deletion.ts:107-136 | a run with one sweeper uploads a replaced object again after its event erased it and before the event is recorded, and ends with the object forgotten; every other step of it is no stray upload |
| `MaterialServices.MaterialTables.RetireAndReplaceAssets` | apps/api/src/verification/verification.service.ts:425-487 | succeeds exactly when no row that it ends is younger than its upload deadline, which the schema demands, and writes nothing otherwise; replaces the uploaded types, ends the others, and adds a delete event for exactly the objects given up |
| `MaterialServices.MaterialTables.RecordSubmission` | apps/api/src/verification/verification.service.ts:267-307 | succeeds exactly when the live types are the submitted ones and the status awaits them, and then lifts every live row's deadline |
| `MaterialServices.MaterialTables.ClaimAsset` | apps/worker/src/verification-asset-deletion.ts:56-72 | claims exactly a due row with the listed key that is unclaimed or whose claim is stale |
| `MaterialServices.MaterialTables.MarkAssetDeleted` | apps/worker/src/verification-asset-deletion.ts:74-84 | marks the row exactly when it still carries this very claim |
| `MaterialServices.MaterialTables.SweepDueAssets` | apps/worker/src/verification-asset-deletion.ts:165-175 | over any list of rows: a row that cannot be claimed is skipped, every other is marked with its object gone or due again if deleting failed, unlisted rows and other objects stay, and the counts are exactly the deleted and the failed rows |
| `MaterialServices.MaterialTables.SweepExactEvents` | apps/worker/src/verification-asset-deletion.ts:150-163 | exactly the events whose object could be deleted are published, and exactly those objects are gone |
| `Idempotency.AtMostOnePerLifetime` | apps/api/src/m2/idempotency.service.ts:66-93 | for any interleaving of attempts, conflicts, duplicates and retries, two committed actions of one operation and key are at least a record lifetime apart |
| `Idempotency.ExactlyOnce` | apps/api/src/m2/idempotency.service.ts:66-153 | within one lifetime all successes come from one actor and one request value, return one status and body, and one of them carried the action out; a request by another actor or with another value has neither succeeded nor taken effect, and conflicts without any change whenever it is answered |
| `IdempotentReplies.RepeatIsAnswered` | apps/api/src/m2/idempotency.service.ts:124-153 | within a day of an operation and key's last action, a request is answered with its status and body exactly if actor, value and encryption key are the same, and conflicts otherwise; nothing is carried out or changed |
| `IdempotentReplies.RepeatIsReplayed` | apps/api/src/m2/idempotency.service.ts:143-151 | in a run without a change of the encryption key, a repeated request always gets the first one's status and body |
| `IdempotentReplies.FreshIsCarriedOut` | apps/api/src/m2/idempotency.service.ts:66-105 | a request with no action of its operation and key within a day is carried out, once; an action that throws leaves nothing behind |
| `Idempotency.SameRequestSameDigest` | apps/api/src/m2/idempotency.service.ts:55-55 | a request is recognised again exactly when it is the same JSON value |
| `Idempotency.IdempotencyService.Execute` | apps/api/src/m2/idempotency.service.ts:35-105 | retries serialization conflicts up to the limit, and ends as the first attempt that is not a conflict says; a valid record of the same actor, value and key version is answered from, any other valid record conflicts |
| `CanonicalJson.PrintInjective` | apps/api/src/m2/idempotency.service.ts:196-213 | two requests print to one text if and only if they are equal as JSON values, whatever the order of object members, with any finite numbers |
| `Numerals.NumeralInjective` | apps/api/src/m2/idempotency.service.ts:200-203 | in any of the four notations Number::toString of ECMA-262 uses, a finite number is determined by its text |
| `CanonicalJson.PrintSolid` | apps/api/src/m2/idempotency.service.ts:196-213 | what follows a printed value in an array, in an object or at the end never belongs to it, so nested values can be read back |
| `RouteWindows.ZonedLocalMinuteToDate` | apps/api/src/catalog/route-windows.ts:89-123 | in any zone the instant found is on a whole minute and shows the wanted date and minute, and 24:00 is never found; with at most two offsets one is found whenever there is one; with a constant offset it is the one instant that shows the time |
| `RouteWindows.GenerateWindowsForDate` | apps/api/src/catalog/route-windows.ts:44-62 | fails exactly on an invalid rule; in any zone the windows lie on their date; with a constant offset they ascend without overlap and are exactly the whole-minute windows of that date which the recogniser accepts |
| `RouteWindows.GeneratedAnyZone` | apps/api/src/catalog/route-windows.ts:44-81 | in any zone a generated window lies on its date, and is recognised exactly when its elapsed time is the rule's |
| `RouteWindows.GeneratorIsRecogniser` | apps/api/src/catalog/route-windows.ts:44-81 | with a constant offset and whole minutes, a window is generated for a date exactly when it starts on it and is recognised; the one that would end at 24:00 is dropped |
| `RouteWindows.WindowsAscend` | apps/api/src/catalog/route-windows.ts:44-62 | with a constant offset the generated windows ascend without overlap |
| `Base32.Base32Encode` | packages/auth/src/index.ts:418-432 | with the accumulator wrapping at 32 bits, the text spells exactly the input's bits, padded with less than one symbol of zeros |
| `Base32.Base32Decode` | packages/auth/src/index.ts:398-416 | accepts exactly the texts that, without trailing padding and in upper case, are sixteen or more symbols of the alphabet, and returns the whole bytes they spell |
| `Base32.EncodeThenDecode` | packages/auth/src/index.ts:398-432 | decoding an encoding returns the same bytes from ten bytes on, the least length that reaches the decoder's sixteen symbols, and fails below |

## Left out

- RouteWindows.GeneratorIsRecogniser: zones with a constant whole-minute offset; of other zones only `ZonedLocalMinuteToDate` and `GeneratedAnyZone` speak, and the date text is a day number.
- Preferences.PreferencesHold: gender is fixed per user; the verification service can change it, and `startFormation` checks again.
- The order in which a sweep lists its rows, but for the requested refunds: any fifty of them are taken.
- Sweeps in imperative form run uninterrupted; their interleavings are those of `Runs` and `MaterialSafety`.
- Idempotency is proved on its own; the service methods here are the actions it wraps.
- Request values the canonical printer rejects; a number is represented by the decimal digits ECMA-262 writes it with.
- One campus: the campus filter of every query, and everything about a second campus.
- Eligibility, stored contacts, the enabled route windows of a schedule and the clock are parameters of each step.
- Group and round states that nothing assigns (COMPLETED, RISK_HOLD, DISPUTED) and the manual paths out of REFUND_RETRY.
- The outbox but for the delete events, audit rows, group versions, response bodies, names and masking.
- The snapshot hash is its rows, request digests are the canonical text, gateway ids and object keys are injective or new.
- CHECK constraints and triggers: four are modelled, `Refund_lifecycle_check`, `TravelDemand_seat_count_check` (CHECK_VIOLATION on creation), `StudentVerification_state_time_check` where it aborts the expiry of a resubmission, and `VerificationAsset_upload_window_check` on deadlines. The others may abort further transactions, among them those that compare a request's time with the time at which the database wrote a row: `FormationRound_deadlines_check`, `ServiceOrder_expiry_check`, `ContactConsent_lifecycle_check`, `OutboxEvent_published_check`, `VerificationAsset_lifecycle_check` and the creation side of the upload window; of the triggers, `ServiceOrder_m4_paying_guard` and `ContactUnlock_m4_delivery_guard`.
- All refunds of one compensation are written at one time, the `at` of its step.
- The upload's content checks against the object store. An upload grant's expiry: an upload puts an object under an issued key at the moment it is written, which may be after its grant was checked (`packages/verification/src/index.ts:99`).
- Controllers, schemas, sessions, TOTP, encryption, the queue wiring and both user interfaces: plumbing.
