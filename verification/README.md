# Verified model of the payment platform

This project models the parts of the payment platform whose promises span many operations, and proves those promises
with Dafny 4.11. `dafny verify dfyconfig.toml` checks everything.

What is modelled, and where:

- **Protocol world** (`Names`, `Journal`, `Network`, `Protocol`, `Invariants`, `Preservation`, `Delivery`, `History`,
  `Recovery`, `Genesis`, `Runs`, `Fencing`, `Outcomes`, `ForeignMessage`; as objects and loops in `Sorting`,
  `Posting`, `Simulation`, `Auditing`, `Worlds`): the simulated ledger with regional spending rights, transfers over a
  lossy network, idempotency, sagas and late fraud verdicts.
- **Escrow hand-off** (`Escrow`, `HandOff`, `HandOffRuns`, `EscrowOutcomes`, `EscrowStore`): the signed transfer of
  spending rights between independent databases.
- **Payments** (`Payments`, `Lifecycle`, `Movements`, `Lockstep`, `Settlement`, `Wallets`, `CellRuns`,
  `PaymentOutcomes`, `PaymentDesk`): the payment lifecycle with the money and the rights each operation moves,
  wallets, deposits and customer transfers.
- **Schema migration** (`Rollout`, `RolloutSafety`, `RolloutRuns`, `RolloutProgress`, `RolloutStore`) and the **SQL
  splitter** (`Lexer`, `Lexemes`, `Splitter`, `Rejoin`).
- **Saga orchestrator** (`Sagas`, `SagaRuns`, `SagaPlans`, `SagaRecords`, `SagaStore`), **messaging** (`Messaging`,
  `MessagingProgress`), **external rails** (`Rails`, `RailAnswers`).
- **Audit** (`AuditChain`, `Merkle`, `Checkpoints`, `CheckpointRuns`) and **canonical payloads** (`Frames`,
  `Payloads`, `PayloadWriters`).
- **Currency conversion** (`Exchange`).

How to read it. Each component has functions that say what one transaction does to the stored rows, an invariant, and
lemmas that carry the invariant through every operation to a statement about whole runs. Where the program works on
objects and loops, a class or method is proved against those functions, and modules of outcomes say for every request
which answer it gets and which accounts, rights and rows it moves. One serializable database transaction is one step;
a serialization failure is a step that did not happen; a crash drops what a worker holds in memory; clocks, leases and
back-off appear only as free choices.

Results that turned out to hold only under a condition are stated as an equivalence, with an input on which the
property fails: a hold without a region breaks the lockstep of money and rights (`CellRuns.LockstepExactly`,
`CellRuns.HoldWithoutRegionUnlevels`), a failure recorded late by a second coordinator breaks the order of the saga
trace (`SagaRecords.LateRecordExactly`, `SagaRuns.TwoCoordinatorsLeaveAStepStanding`), differing retry limits revive a
poisoned message (`Messaging.PoisonStaysExactly`, `Messaging.DifferentLimitsRevive`), a Merkle root does not show a
repeated odd leaf (`Merkle.RootsDecideLeaves`), and a certificate consumed under a foreign message name fails the
audit (`Delivery.AuditedUnderItsOwnMessage`, `ForeignMessage.ForeignMessageFails`).

Where the code and its comments differ, the code is followed. The comments promise that concurrent coordinators
serialize on the saga row; the failure of an action is recorded in a transaction of its own that does not look at the
step again, and that is what is modelled.

## Model

| member | source | states |
|---|---|---|
| Runs.EveryReachableStatePassesAudit | internal/failuresim/invariants.go:12-217 | Every state reachable from a valid configuration by any sequence of the modelled steps (payments, deposits, releases, cashback, transfers, dispatch, delivery, sagas, fraud ticks, crashes, restarts, data-centre loss, lost responses, network faults) satisfies the whole audit: balanced hash-chained journal that refolds without overflow to the stored balances, one receipt per effect, conserved rights, bounded payments and cashback, linked outbox and inbox, exactly-once transfers, finished sagas. |
| Runs.StepKeeps | internal/failuresim/operations.go:18-373 | Each single step, whatever its arguments, keeps the inductive invariant that implies the audit. |
| Invariants.InvPassesAudit | internal/failuresim/invariants.go:12-217 | The inductive invariant implies every clause of the audit, so the audit itself need not be inductive. |
| Worlds.World.AssertAllFinancialInvariants | internal/failuresim/invariants.go:12-217 | The audit as loops over the object answers true exactly when the declarative invariants hold of the object; it changes nothing. |
| Auditing.FoldJournal | internal/failuresim/invariants.go:16-67 | Refolding the journal with checked additions succeeds exactly when every transaction is chained, balanced, unique and representable, and then yields the sum of all changes per account. |
| Auditing.AuditRegions | internal/failuresim/invariants.go:115-127 | The loop over regions accepts exactly when every regional right is non-negative and equals its ledger account and the sum stays representable, and returns unallocated authority plus all rights. |
| Auditing.AuditTransfers | internal/failuresim/invariants.go:128-154 | The loop over transfers accepts exactly when each certificate verifies, is either in transit or consumed, is acknowledged only after consumption, and when consumed has its inbox record and one journal effect; it returns the value in transit. |
| Preservation.LocalImpliesGlobal | internal/failuresim/operations.go:57-79 | In every invariant state a spend that one region covers from its own rights is also covered by the balance plus credit, so partitioned regions can never overdraw the customer together. |
| Preservation.PayKeeps | internal/failuresim/operations.go:18-118 | A fenced payment keeps the invariant on every path: fencing error, replay by key, conflicting key, replay by effect, refusal, overflow, crash before or after commit, lost response, success. |
| Preservation.DepositKeeps | internal/failuresim/operations.go:128-189 | A deposit raises balance, authority and the regional right together or changes nothing. |
| Preservation.ReleaseKeeps | internal/failuresim/operations.go:203-284 | A refund, reversal or chargeback keeps the invariant and never returns more than is outstanding on its payment. |
| Preservation.CashbackKeeps | internal/failuresim/operations.go:302-373 | A cashback grant keeps the invariant and the total paid under its rule stays within the maximum. |
| Preservation.InitiateKeeps | internal/failuresim/transfer.go:21-83 | Issuing a certificate moves rights into transit exactly once and keeps the invariant. |
| Preservation.ConsumeKeeps | internal/failuresim/transfer.go:89-163 | Consuming a certificate moves the value out of transit at most once and keeps the invariant, also on replays and crashes after the effect. |
| Preservation.AdvanceTicksKeeps | internal/failuresim/saga_fraud_external.go:131-200 | Judging the due fraud verdicts in name order keeps the invariant. |
| Delivery.DeliverKeeps | internal/failuresim/transfer.go:222-255 | Delivering whatever the network hands over, in any order and with duplicates, keeps the invariant. |
| Delivery.AdvanceSagaKeeps | internal/failuresim/saga_fraud_external.go:33-78 | Advancing a saga, taken as one step, keeps the invariant; its payment is made at most once across coordinator crashes. |
| Delivery.AuditedUnderItsOwnMessage | internal/failuresim/transfer.go:89-163 | A first consumption delivered under a message name passes the audit if and only if that name is the transfer message of the certificate. |
| ForeignMessage.ForeignConsumptionFails | internal/failuresim/transfer.go:89-163 | In every invariant state a certificate in transit is accepted under any unused message that is not its own, as long as its destination is up, and the state after it fails the audit. |
| ForeignMessage.ForeignMessageFails | internal/failuresim/transfer.go:21-163 | The failing input as a run: a world is created, region A issues four to region B, and the certificate is consumed under the message of another transfer; the call succeeds and the audit fails. |
| Recovery.OneRoundSettlesEverything | internal/failuresim/transfer.go:192-296 | From any invariant state whose regions run, quorum holds, links are whole and no drop or crash counter is pending, one round of dispatch and delivery leaves every transfer consumed and acknowledged, whatever stale, duplicated or reordered envelopes are queued. |
| Recovery.ConsumedOnce | internal/failuresim/transfer.go:89-163 | A settled transfer has exactly one consumption effect in the journal. |
| Genesis.CreatedKeeps | internal/failuresim/world.go:113-199 | The world built from any valid configuration satisfies the invariant: the genesis transaction posts, balances and explains every initial balance and right. |
| Runs.RetriesReturnTheFirstReceipt | internal/failuresim/operations.go:401-414 | A request that committed, also one whose response was lost, commits nothing when it is repeated at any later point of the run; unless it is fenced off, malformed or sent under a key used for something else it is answered, and always by the first receipt. |
| Runs.RunExtends | internal/failuresim/world.go:224-295 | Along any run the journal only grows at its end and no effect receipt or idempotent answer is changed or lost. |
| Runs.KnownCommitsNothing | internal/failuresim/operations.go:401-414 | A request whose effect is already known leaves journal, balances and effects as they are. |
| Fencing.BarredWriterChangesNothing | internal/failuresim/world.go:333-355 | For payment, deposit, release, cashback and transfer alike, in every state: if the region is unknown or stopped, its epoch differs from that of the fence, or fewer than four of dc01 to dc07 are up, nothing changes and the reply carries exactly that error. |
| Fencing.EpochsCountRestarts | internal/failuresim/world.go:367-392 | Along any run the epoch of a region grows by exactly the number of its restarts. |
| Fencing.StaleFenceChangesNothing | internal/failuresim/world.go:343-355 | A write under a fence read before a restart of its region changes nothing in any later state of the run, and is answered as stale, or as down while the region is. |
| Outcomes.PayOutcome | internal/failuresim/operations.go:18-118 | A new well-formed payment of an admitted writer, with no crash pending before its commit, commits exactly within the rights of its region and the range of the merchant account: customer and region lose the amount, merchant and consumed authority gain it, no other account moves; errors, receipt, stored answer, payment row and the effect of pending faults are stated, and any refusal changes nothing. |
| Outcomes.DepositOutcome | internal/failuresim/operations.go:128-189 | A new deposit commits exactly when every account stays representable, moving money from funding and authority from the issuer to the region. |
| Outcomes.ReleaseOutcome | internal/failuresim/operations.go:203-300 | A new refund, reversal or chargeback commits exactly when its payment exists, still holds the amount and the authority fits; only the counter of its own kind grows, and the status follows from the counters. |
| Outcomes.CashbackOutcome | internal/failuresim/operations.go:302-373 | A new grant commits exactly within the one maximum of its rule, paid from the cashback expense. |
| Outcomes.InitiateOutcome | internal/failuresim/transfer.go:21-83 | A new well-formed transfer of an admitted writer is issued exactly within the rights of its region: rights move to transit, the certificate carries what was asked for in the epoch of the fence, and its command waits in the outbox. |
| Outcomes.ConsumeOutcome | internal/failuresim/transfer.go:89-163 | A certificate in transit, delivered under its own message to a running destination with a quorum, is always consumed: rights move from transit to the destination, also when it crashes before answering. |
| Outcomes.RepeatedConsumption | internal/failuresim/transfer.go:89-163 | A certificate consumed before is answered by its stored receipt as a duplicate and moves nothing. |
| Outcomes.JudgeOutcome | internal/failuresim/saga_fraud_external.go:131-200 | A clean verdict, and one whose payment holds nothing, is only marked; a fraudulent one charges back exactly what the payment still held, to the region that captured it, and leaves nothing outstanding. |
| Outcomes.TicksOutcome | internal/failuresim/saga_fraud_external.go:131-200 | Over all verdicts of a tick: clean ones are marked, a marked fraudulent one leaves its payment with nothing outstanding, no other verdict changes, and with a quorum and room every one is marked without an error. |
| Outcomes.SagaOutcome | internal/failuresim/saga_fraud_external.go:33-78 | A saga whose payment can be made pays once in its first step, also when the answer is lost, and is completed by its second. |
| Outcomes.StartSagaOutcome | internal/failuresim/saga_fraud_external.go:12-31 | A saga is started once; the same start again answers its progress and a different one is refused. |
| Outcomes.ScheduleOutcome | internal/failuresim/saga_fraud_external.go:108-129 | A verdict is scheduled once for a known payment and is due from the tick its delay names. |
| Outcomes.CrashAndRestart | internal/failuresim/world.go:367-392 | A crash stops a region and takes it off the network; a restart brings it back in the next epoch with the rights it had. |
| Journal.PostKeeps | internal/failuresim/world.go:224-295 | Posting keeps the ledger: chained and balanced journal, balances equal to its fold, one proven receipt per effect; a known effect with another fingerprint is refused. |
| Journal.HeadBindsJournal | internal/failuresim/world.go:297-316 | Two chained journals with the same head hash are equal transaction by transaction. |
| Posting.Tally | internal/failuresim/world.go:237-275 | The loop that collects per-asset totals and prospective balances fails with exactly the error of the first bad line, and otherwise holds the sums and balances of all lines. |
| Worlds.World.Post | internal/failuresim/world.go:224-295 | The object method refines the posting function on the world state, including both idempotency outcomes. |
| Worlds.World.PayWithFence | internal/failuresim/operations.go:18-118 | The imperative payment leaves exactly the state and reply of the specified step and keeps the object valid; what that step does is said by Outcomes.PayOutcome and Fencing.BarredWriterChangesNothing. |
| Worlds.World.Deposit | internal/failuresim/operations.go:128-189 | The imperative deposit leaves exactly the state and reply of the specified step. |
| Worlds.World.ReleaseCapture | internal/failuresim/operations.go:203-284 | The imperative refund, reversal or chargeback leaves exactly the state and reply of the specified step. |
| Worlds.World.GrantCashback | internal/failuresim/operations.go:302-373 | The imperative cashback leaves exactly the state and reply of the specified step. |
| Worlds.World.InitiateTransfer | internal/failuresim/transfer.go:21-83 | The imperative issue of a certificate leaves exactly the state and reply of the specified step. |
| Worlds.World.ConsumeTransfer | internal/failuresim/transfer.go:89-163 | The imperative consumption leaves exactly the state and reply of the specified step. |
| Worlds.World.DispatchOutbox | internal/failuresim/transfer.go:192-219 | The loops that mark attempts, sort pending records and send them refine the dispatch step for some increasing listing of the unacknowledged transfer messages. |
| Worlds.World.DeliverMessages | internal/failuresim/transfer.go:222-255 | The delivery loop refines the delivery step over the drained envelopes. |
| Worlds.World.PumpUntilSettled | internal/failuresim/transfer.go:286-296 | The bounded loop of rounds keeps the object valid; when it reports settled every transfer is consumed and acknowledged, and from a repaired world it reports settled for any positive number of rounds. |
| Worlds.World.AdvanceSaga | internal/failuresim/saga_fraud_external.go:33-78 | The imperative saga step leaves exactly the state and reply of the specified step. |
| Worlds.World.AdvanceLogicalTicks | internal/failuresim/saga_fraud_external.go:131-200 | The tick loop collects and sorts the due verdicts and judges them in that order, as specified. |
| Worlds.World.NewWorld | internal/failuresim/world.go:113-199 | Construction succeeds exactly for valid configurations and then yields a valid object in the specified initial state. |
| Sorting.SortStrings | internal/failuresim/saga_fraud_external.go:202-208 | The in-place insertion sort leaves a sorted permutation. |
| Sorting.IncreasingUnique | internal/failuresim/world.go:201-208 | Two increasing listings of one set are equal, so the order in which a map is visited leaves no trace. |
| Names.EffectNameInjective | internal/failuresim/operations.go:18-373 | No two economic effects share a rendered identifier, whatever the caller-supplied parts contain. |
| Names.AccountNameInjective | internal/failuresim/types.go:38-49 | No two ledger accounts share a name, whatever the region is called. |
| Names.MessageNameInjective | internal/failuresim/transfer.go:192-272 | No two messages share a rendered identifier. |
| Names.TxNameInjective | internal/failuresim/world.go:224-295 | Zero-padded transaction names are injective at every sequence number, also beyond twenty digits. |
| Simulation.Network.Send | internal/simulation/network.go:164-203 | Sending refuses exactly on a crashed or partitioned end or a drop, and otherwise appends the message with its duplicates under fresh sequence numbers. |
| Simulation.Network.Drain | internal/simulation/network.go:207-231 | Draining returns exactly the deliverable envelopes, newest first and stable when reordering, and keeps the rest in order. |
| Network.DrainPartitions | internal/simulation/network.go:207-231 | Delivered and kept envelopes together are the queue: nothing is lost or invented by draining. |
| Network.NewestFirstSorts | internal/simulation/network.go:218-229 | The reordering is a permutation in non-increasing sequence order. |
| Network.SendOutcome | internal/simulation/network.go:164-203 | A send is refused for exactly the stated reasons in their order, and otherwise queues the message under the next number followed by as many counted copies as were asked for. |
| Network.DrainKeepsOrder | internal/simulation/network.go:207-231 | Kept envelopes, and without reordering also delivered ones, stay in the order in which they were queued. |
| HandOffRuns.HandOffsNeverChangeValue | internal/escrow/service.go:80-535 | Over any number of databases and any interleaving, retry or crash of the hand-off phases, spendable rights plus issued but unconsumed transfers of a holder never change. |
| HandOffRuns.RunsConserve | internal/escrow/effects.go:36-204 | Along any run the same quantity changes by exactly what authorities, spends and returns add or take, and the system invariant holds throughout. |
| HandOffRuns.StepKeeps | internal/escrow/service.go:80-535 | Every phase on any database keeps every database conserved and the signed, consumed and acknowledged rows consistent with each other. |
| HandOffRuns.IssuedOnce | internal/escrow/service.go:118-163 | Two signed certificates with the same transfer identifier, or with the same issuance number of one source, are the same certificate: source epochs never repeat. |
| HandOffRuns.HonestNeverConflicts | internal/escrow/service.go:235-363 | An honestly signed certificate is never refused as a conflict, neither by transfer nor by issuance number. |
| HandOffRuns.HonestReceiptSettles | internal/escrow/service.go:466-535 | An honest receipt always settles its transfer at the source, also when repeated, as long as the version column has room. |
| HandOffRuns.NeverInconsistent | internal/escrow/effects.go:82-110 | The branches of effects and acknowledgements that report an inconsistent authority are unreachable. |
| HandOffRuns.EveryDraftCanComplete | internal/escrow/service.go:80-535 | From every reachable state a drafted transfer whose destination has room for it is completed by a run of hand-off steps from that state, ending with its acknowledgement by a receipt for its own certificate; the total value of no holder changes on the way. |
| HandOff.MutatedConserves | internal/escrow/effects.go:36-204 | An allocation, spend or return keeps one authority conserved and changes what is spendable by exactly its amount, or refuses. |
| EscrowStore.Store.ApplyEffect | internal/escrow/effects.go:250-289 | One effect under its permanent receipt: the tables end as specified, a repetition changes nothing and a changed repetition is refused. |
| EscrowStore.Store.Draft | internal/escrow/service.go:80-184 | The first transaction of a hand-off leaves the tables and the draft as specified. |
| EscrowStore.Store.Consume | internal/escrow/service.go:235-363 | The destination transaction, with its search for a reused issuance number, leaves the tables as specified. |
| EscrowStore.Store.Acknowledge | internal/escrow/service.go:466-535 | The source acknowledgement leaves the tables as specified. |
| EscrowStore.CheckConserved | internal/escrow/types.go:82-106 | The accumulating loop answers true exactly when no part is negative and the parts sum to the total without overflow. |
| EscrowStore.ConservedSnapshotPasses | internal/escrow/types.go:82-106 | Every snapshot of a conserved database without offline allowances passes that check. |
| EscrowOutcomes.EffectOutcome | internal/escrow/effects.go:18-290 | Every allocation, spend and return: repeated, refused with its reason, or applied to exactly the region, authority and unallocated part it names while no other number moves. |
| EscrowOutcomes.DraftOutcome | internal/escrow/service.go:80-195 | A draft takes exactly its amount out of the source region, keeps it in the authority, and certifies the request under the next number of that region; every refusal has its reason and changes nothing. |
| EscrowOutcomes.ConsumeOutcome | internal/escrow/service.go:235-421 | A consumption raises right and authority of the destination region by the amount, once per transfer and per issuance, under the next watermark; every refusal has its reason and changes nothing. |
| EscrowOutcomes.AcknowledgeOutcome | internal/escrow/service.go:466-535 | An acknowledgement takes the amount out of the authority of the source, once, for the stored and signed certificate only. |
| EscrowOutcomes.RightsAddUp | internal/escrow/service.go:80-535 | Over any run, what a holder may spend in a region is what was allocated, returned and received there minus what was spent and handed off there, each committed transaction counted once. |
| Lifecycle.CaptureKeeps | internal/payment/service.go:234-392 | A capture keeps captured plus released within the authorization, the aggregates equal to the fold of the capture rows, cashback within its rule, and moves along an edge of the state machine to the state its counters determine. |
| Lifecycle.ReleaseKeeps | internal/payment/service.go:402-495 | A release or reversal keeps the same bounds and reaches the state its counters determine along an edge of the state machine. |
| Lifecycle.ReturnKeeps | internal/payment/service.go:997-1058 | A refund or chargeback within its own capture can never exceed the payment as a whole: the aggregate check after the fold cannot fail, and the state follows an edge. |
| CellRuns.StepKeeps | internal/payment/service.go:147-660 | Every payment, wallet, deposit and transfer operation keeps the cell invariant, and no payment disappears or leaves the state machine. |
| CellRuns.EveryRunBalances | internal/payment/service.go:147-660 | After any run from an empty cell: every payment is within its bounds with its state a function of its counters, each held account carries exactly what its payments have authorized and neither captured nor released, every book balances per asset, and settlement accounts sum to zero per asset. |
| CellRuns.EveryBackedRunStaysLevel | internal/provisioning/service.go:390-526 | After any run whose holds name a region, each wallet balance equals its total authority and the sum of its regional rights. |
| CellRuns.LockstepExactly | internal/payment/service.go:187-224 | From a cell in lockstep a step leaves wallets level if and only if it is not a new, well-formed hold without a region on accounts whose role, book, asset and balance admit it; the condition reads the request and the rows before the call only. |
| CellRuns.HoldReadyExactly | internal/payment/service.go:187-224 | A hold without a region takes effect if and only if it is well formed and its accounts have the right roles, book and asset, enough available money and room for the result. |
| CellRuns.NamedRegionsStayLevel | internal/payment/service.go:216-224 | A run from an empty cell in which every hold request names a region keeps each wallet level, whether or not the calls succeed. |
| CellRuns.HoldWithoutRegionUnlevels | internal/payment/service.go:216-224 | The failing run: from an empty cell, a bank and a shop are registered, a wallet is opened and funded with ten, and a hold without a region leaves the wallet with less money than rights. |
| CellRuns.RepeatedCallIsAnswered | internal/payment/service.go:762-827 | A payment call that succeeded is answered, at any later point of any run, by its first receipt marked duplicate, and the cell does not change. |
| CellRuns.RepeatedTransferIsAnswered | internal/transfer/service.go:178-189 | The same for customer transfers. |
| Wallets.OrderFree | internal/transfer/service.go:221-246 | Writing the two books of a transfer in their fixed lock order moves exactly what writing the payer first would, and fails for the same requests. |
| Wallets.CrossBookCancels | internal/transfer/legs.go:114-161 | A cross-book transfer leaves the sum of settlement accounts of every asset unchanged. |
| Wallets.TransferMoves | internal/transfer/legs.go:79-162 | A transfer takes its amount from the payer, gives it to the payee, and touches no other account outside settlement. |
| Wallets.TransferInStep | internal/transfer/service.go:261-269 | Rights follow the money of a transfer: both wallets stay level. |
| Wallets.DepositInStep | internal/provisioning/service.go:696-723 | A deposit raises balance, authority and regional right by the same amount. |
| Movements.PostBalances | internal/ledger/types.go:212-263 | A transaction whose legs stay in one book and asset keeps the zero sum of every book and asset. |
| Settlement.CaptureMoves | internal/payment/service.go:282-345 | The lines of a capture take exactly the captured amount from the held account and add exactly the cashback to the available one, whatever other accounts of customers there are. |
| PaymentOutcomes.HoldOutcome | internal/payment/service.go:147-224 | A hold moves its amount from the available to the held account and the same right out of its region, opens an unused payment, and is refused for exactly the stated reasons. |
| PaymentOutcomes.CaptureOutcome | internal/payment/service.go:234-392 | For every account: an accepted capture takes the amount from the held account, gives amount minus fee and tax to the merchant, the fee and the tax to their accounts, and the cashback from its account to the customer; counters, capture row, state, receipt and rights are stated, and every refusal has its reason. |
| PaymentOutcomes.ReleaseOutcome | internal/payment/service.go:402-495 | A release moves money and rights back to where the hold took them from, a reversal only as a whole and from an uncaptured payment; every refusal has its reason. |
| PaymentOutcomes.ReturnOutcome | internal/payment/service.go:497-660 | A refund raises the refunded counters and a chargeback the charged-back ones, of the payment and of the one capture it names; a fully returned payment is charged back exactly when nothing was ever refunded; money leaves the named merchant account; every refusal has its reason. |
| PaymentOutcomes.DepositOutcome | internal/provisioning/service.go:390-526 | A deposit moves money from the funding account and raises the right of the region by as much, or changes nothing, for exactly the stated reasons. |
| PaymentOutcomes.TransferOutcome | internal/transfer/service.go:156-333 | A customer transfer moves money and rights from payer to payee, across books through the settlement account of each, and is refused for exactly the stated reasons. |
| PaymentOutcomes.OperationsApart | internal/payment/service.go:234-660 | Two requests share an idempotency record name exactly when they are of one kind. |
| PaymentDesk.Desk.Execute | internal/payment/service.go:762-827 | One serializable call on the tables: state and answer are those of the specified call, and a refused operation leaves no trace of the rows it had already written. |
| PaymentDesk.Desk.Capture | internal/payment/service.go:234-392 | The statement-by-statement capture follows the specified capture. |
| PaymentDesk.Desk.GiveBack | internal/payment/service.go:497-660 | The statement-by-statement refund or chargeback, with its loop over the capture rows, follows the specified return. |
| PaymentDesk.Desk.Fold | internal/payment/service.go:1037-1057 | The loop over capture rows returns the two exact sums. |
| PaymentDesk.Desk.ExecuteTransfer | internal/transfer/service.go:156-297 | The transfer on the tables, legs sorted in place and posted in a loop, follows the specified transfer and rolls back as a whole. |
| PaymentDesk.Desk.Deposit | internal/provisioning/service.go:390-526 | The deposit on the tables follows the specified deposit and rolls back as a whole. |
| RolloutRuns.ReadsNeverChange | internal/schemamigration/workflow.go:333-375 | Whatever a read of a posted transaction returned in one reachable state, every read in every later state returns, apart from the generation number; this covers all posted transactions, not only those below a watermark. |
| RolloutSafety.ReadsTheHeader | internal/schemamigration/workflow.go:333-375 | In every reachable state, before and after cutover, a read returns exactly what the immutable header says. |
| RolloutRuns.StepKeeps | internal/schemamigration/transitions.go:18-320 | Posting, opening books, inserting projections, starting, backfilling by any number of workers, verifying, cutting over, contracting and acknowledging all keep the invariant, and neither a projection mismatch nor a corrupt watermark is ever reported. |
| RolloutSafety.SnapshotVerifies | internal/schemamigration/transitions.go:79-167 | Once nothing is pending, the closed snapshot verifies: both row sets are equal and every captured head is still proved. |
| RolloutSafety.BackfillSucceeds | internal/schemamigration/workflow.go:134-264 | A pending book always has its next contiguous batch, which is projected without a conflict and advances the cursor past it. |
| RolloutRuns.ContractedIsAcknowledged | internal/schemamigration/transitions.go:398-458 | A contracted rollout has at least one required reader and every required reader has acknowledged the generation being read. |
| RolloutRuns.RunKeeps | internal/schemamigration/transitions.go:249-458 | Along any run nothing posted changes, and phase, generations and version never go back. |
| RolloutRuns.BackfillEnds | internal/schemamigration/workflow.go:269-291 | With any posts, checks and batches of other workers in between, all workers together commit at most as many batches as the marks had sequence numbers left to visit. |
| RolloutRuns.BackfillGoesOn | internal/schemamigration/workflow.go:134-264 | While shadowing, a call commits a batch if and only if some pending book is not locked by another worker. |
| RolloutProgress.EveryRolloutCanFinish | internal/schemamigration/transitions.go:18-458 | From every reachable state the operator can lead the rollout to its end without touching the ledger, once there is a required reader or one can still be named. |
| RolloutProgress.OneTransitionPerVersion | internal/schemamigration/transitions.go:249-458 | Of all operators that act on one version at most one moves the phase: successive transitions name strictly larger versions. |
| RolloutProgress.TransitionsAreFenced | internal/schemamigration/transitions.go:18-77 | A step that moves the phase moves it by one, under the version and generation it names. |
| RolloutStore.Workflow.Backfill | internal/schemamigration/workflow.go:269-291 | The unbounded loop terminates, by the number of sequence numbers left to visit; run alone it fails only for a wrong generation or phase and ends with no book pending; a limit bounds its batches. |
| RolloutStore.Workflow.BackfillOnce | internal/schemamigration/workflow.go:134-264 | One bounded transaction takes the least pending book not locked by another worker, follows the specified batch, and strictly shrinks what is left. |
| RolloutStore.Workflow.Start | internal/schemamigration/workflow.go:44-129 | Capturing every head in a loop yields the specified watermarks; a repetition after an unknown outcome changes nothing. |
| RolloutStore.Workflow.Cutover | internal/schemamigration/transitions.go:249-320 | The re-verification and the compare-and-swap follow the specified cutover. |
| Splitter.Split | internal/schemamigration/split.go:32-143 | The one-pass loop with its flags returns the numbered statements of the recursive lexer, reports an open construct exactly when the lexer ends inside one, and reports an empty file exactly when there is no statement. |
| Splitter.PiecesPartition | internal/schemamigration/split.go:32-143 | The raw slices with their semicolons concatenate to the whole text. |
| Splitter.CutsAreTopLevelSemicolons | internal/schemamigration/split.go:32-143 | The cuts are exactly the semicolons outside every quote, comment and dollar body. |
| Splitter.OpenExactly | internal/schemamigration/split.go:129-142 | Splitting fails exactly for texts that end inside a quote, block comment or dollar body. |
| Lexemes.UnitsAreTokens | internal/schemamigration/split.go:32-178 | The lexer reads exactly what can be printed: a unit ends at a position if and only if a line comment, a properly nested block comment, a quotation, a quoted name, a dollar quote or a single character, printed without the lexer, stands there. |
| Lexemes.QuotedIsOneUnit | internal/schemamigration/split.go:70-153 | Any content, with quotes doubled, or after a whole-word E or U& with backslashes and quotes escaped, is one unit. |
| Lexemes.NameIsOneUnit | internal/schemamigration/split.go:85-121 | Any content in double quotes with double quotes doubled is one unit. |
| Lexemes.DollarIsOneUnit | internal/schemamigration/split.go:62-178 | Any content without a dollar between two equal tags is one unit. |
| Lexemes.NoCutInside | internal/schemamigration/split.go:32-143 | A semicolon inside any of these constructs is never a cut. |
| Rejoin.SplitJoinSplit | internal/schemamigration/split.go:32-189 | Joining the statements of a text with newlines and splitting again returns the same statements. |
| SagaRuns.EveryTraceIsOrdered | internal/saga/orchestrator.go:81-315 | With one coordinator, an inbox handler and crashes at any point, the committed trace is steps 0 to k-1 finished once and in order, followed when compensating by their exact reversal so far; completed means all of them finished, compensated means all of them undone, and the next action asked for is the next in that order. |
| Sagas.RecordExactly | internal/saga/orchestrator.go:280-315 | Recording a failed action keeps rows and trace in agreement, that is, keeps the inductive invariant, if and only if the failed step is still the one to run or undo next. |
| SagaRecords.LateRecordExactly | internal/saga/orchestrator.go:280-315 | After a failure recorded late by another coordinator, every continuation of the saga stays ordered if and only if the record is harmless, a condition on status, step, kind of failure and cursor that can be read before recording; the harmless late records of finished sagas are included. |
| SagaRuns.TwoCoordinatorsLeaveAStepStanding | internal/saga/orchestrator.go:103-119 | Two coordinators for whom that condition fails: the saga ends compensated although its only finished step was never undone. |
| SagaRuns.StepKeeps | internal/saga/orchestrator.go:81-315 | Ticks, recorded failures, crashes and remote results keep the saga sound; no remote result is taken for a step whose action has just failed. |
| SagaPlans.RunFollowsPlan | internal/saga/orchestrator.go:81-315 | Over every run, status, cursor, standing steps and trace are those of a reference plan that knows only how the handlers ended, not the rows. |
| SagaPlans.TurnsBackExactly | internal/saga/orchestrator.go:121-315 | A saga is compensating or compensated if and only if an action of it ended in a permanent failure that was recorded before a crash. |
| SagaPlans.TransientFailureRetries | internal/saga/orchestrator.go:280-315 | After a recorded transient failure the saga runs on at the same step, and a succeeding tick finishes that step. |
| SagaPlans.RunningCompletes | internal/saga/orchestrator.go:121-188 | A running saga with nothing awaited is completed by one succeeding tick for each remaining step, which finish in order. |
| SagaPlans.NothingLeftCompletes | internal/saga/orchestrator.go:121-130 | With every step behind it, one tick completes a running saga, whatever its handler would do. |
| Sagas.CompensateKeeps | internal/saga/orchestrator.go:190-228 | A committed compensation undoes the last standing step and leaves exactly one fewer. |
| SagaRuns.CompensationEnds | internal/saga/orchestrator.go:190-228 | From any compensating state, one successful tick per standing step and one more end compensated. |
| SagaStore.Rows.Tick | internal/saga/orchestrator.go:81-119 | A tick on the rows commits what is specified or records the failure, never reports an impossible step, and keeps rows and trace in agreement. |
| SagaStore.Rows.LastCompensatable | internal/saga/orchestrator.go:347-363 | The search from the end finds the last step that still has to be undone. |
| SagaStore.Rows.CompleteWaiting | internal/saga/orchestrator.go:233-267 | A remote result finishes its step once; a duplicate changes nothing and an unexpected one is refused. |
| AuditChain.TamperEvident | internal/audit/verifier.go:157-190 | Two lists verified for one range with the same last hash agree on every hashed field and start from the same predecessor, unless two of their payloads collide. |
| AuditChain.RangesCompose | internal/audit/verifier.go:167-185 | A range is accepted if and only if its two parts are, the second starting from the last hash of the first. |
| AuditChain.VerifiedBalance | internal/ledger/types.go:212-263 | Every transaction of a verified range balances for every asset. |
| AuditChain.Validate | internal/ledger/types.go:212-263 | The loops over lines and assets accept exactly the entries whose header is complete, whose running totals are representable and whose debits equal credits per asset. |
| AuditChain.Verify | internal/audit/verifier.go:157-190 | The verification loop returns exactly the specified result, with count, last hash and Merkle root. |
| AuditChain.VerifiesExactly | internal/audit/verifier.go:157-166 | The checks on first, last and length add nothing to the chain but its length. |
| Merkle.RootsDecideLeaves | internal/audit/merkle.go:12-38 | Without a collision among the hashed texts, two lists of entry hashes share a root if and only if they are equal or one repeats the odd last leaf of the other; the empty list shares its root with no other. |
| Merkle.RepeatIsLost | internal/audit/merkle.go:20-24 | For every odd length of at least three, writing the last leaf twice gives the same root. |
| Merkle.CountedRootsDecide | internal/audit/checkpoint.go:227-248 | With the leaf count that every checkpoint payload states, the root decides the leaves. |
| Merkle.ComputeRoot | internal/audit/merkle.go:12-38 | The nested loops terminate and compute the recursively defined root. |
| Checkpoints.NewestFixesHistory | internal/audit/checkpoint.go:227-248 | Two books whose newest signed checkpoints have the same payload have the same history from the first transaction to that checkpoint. |
| Checkpoints.CommitKeeps | internal/audit/checkpoint.go:48-163 | A checkpoint prepared in one state and committed in a later one still tiles the journal: the check of the predecessor at commit is enough. |
| CheckpointRuns.EveryBookIsSound | internal/audit/checkpoint.go:48-225 | Every book reached from an empty one by posts, checkpoints prepared by any number of checkpointers on a chain that may be stale by then, and commits is sound: its checkpoints tile a prefix of its journal and every one of them replays; journal and checkpoints only grow. |
| CheckpointRuns.CommitsAreOrdered | internal/audit/checkpoint.go:108-149 | Of the checkpointers that read the same newest checkpoint at most one commits: successive commits have read strictly later ones. |
| Checkpoints.EachNumberOnce | internal/audit/checkpoint.go:64-75 | Every sequence number up to the newest checkpoint lies in exactly one checkpointed range. |
| Checkpoints.StoredReplays | internal/audit/checkpoint.go:183-225 | Every stored checkpoint replays successfully at any later time. |
| Checkpoints.PrepareSucceeds | internal/audit/checkpoint.go:64-88 | Any range that follows the newest checkpoint and is posted can be checkpointed. |
| Payloads.PayloadsInjective | internal/offline/canonical.go:23-105 | Across ledger entries, checkpoints, certificates, receipts, allowances, presentations and closures, equal payloads are payloads of the same document of the same kind; documents named only by hash must not collide. |
| Payloads.EntryInjective | internal/ledger/hash.go:54-95 | One entry payload belongs to one predecessor, one sequence number and one entry with all its lines in order. |
| Payloads.CertificateInjective | internal/escrow/certificate.go:111-142 | Equal certificate payloads are payloads of equal certificates. |
| Payloads.ReceiptInjective | internal/escrow/receipt.go:70-95 | Equal receipt payloads are payloads of equal receipts for the same certificate. |
| Payloads.CheckpointInjective | internal/audit/checkpoint.go:227-253 | Equal checkpoint payloads are payloads of equal checkpoints, with or without a predecessor root. |
| Payloads.AllowanceInjective | internal/offline/canonical.go:23-42 | Equal allowance payloads are payloads of equal allowances. |
| Payloads.PresentationInjective | internal/offline/canonical.go:52-73 | Equal presentation payloads are payloads of equal presentations of the same allowance. |
| Payloads.ClosureInjective | internal/offline/canonical.go:90-105 | Equal closure payloads are payloads of equal closures. |
| Frames.TagsSeparate | internal/offline/canonical.go:9-18 | No text tagged for one domain is a text tagged for another, whatever follows the tags. |
| Frames.Reads | internal/ledger/hash.go:122-141 | Fields of one shape are read back exactly from their encoding, whatever follows it. |
| PayloadWriters.WriteLines | internal/ledger/hash.go:84-94 | The loop over lines appends exactly the encoding of the numbered lines, and fails exactly when a field does not fit its prefix. |
| PayloadWriters.WriteClosures | internal/offline/canonical.go:114-128 | Collecting, sorting and appending writes the payload of the one increasing listing of the domains. |
| PayloadWriters.ClosureOrderIsLost | internal/offline/canonical.go:114-128 | Whatever order the map is visited in, the hashed payload is the same. |
| PayloadWriters.ClosureSetInjective | internal/offline/canonical.go:114-128 | Equal closure-set payloads come from equal sets of closures. |
| Messaging.EffectsCommitOnce | internal/messaging/inbox.go:32-142 | Across any interleaving of claims, lease expiry, lost answers, redeliveries, handler failures and crashes, a handler effect commits at most once per consumer and event, exactly when the row says applied, and only for the message that was enqueued. |
| Messaging.PublishedMeansSent | internal/messaging/publisher.go:32-84 | A row marked published has reached the broker, and a well-formed message is retired only when its attempt counter is exhausted, never by broker errors before. |
| Messaging.FinalStatusesStay | internal/messaging/outbox.go:139-233 | Published, retired and applied rows keep their status in every later state of any run, and so does a poisoned row when all failures on it are recorded with one limit. |
| Messaging.PoisonStaysExactly | internal/messaging/inbox.go:113-142 | A poisoned row stays poisoned in every state of a run if and only if each failure recorded on it uses a limit no larger than its count at the start plus one plus the records made on it since. |
| Messaging.DifferentLimitsRevive | internal/messaging/inbox.go:113-142 | The failing run from a fresh system: two deliveries of one message are held at once, one worker with limit 1 poisons the row and the other with limit 5 turns it back into a failing one. |
| Messaging.StepKeeps | internal/messaging/outbox.go:47-233 | Every step keeps the messaging invariant and moves no final row. |
| MessagingProgress.EveryMessageCanArrive | internal/messaging/publisher.go:32-84 | From every reachable state a message that is neither retired nor poisoned for a consumer can be published and applied there with exactly one effect, in at most four steps. |
| MessagingProgress.HeldLeaseMarks | internal/messaging/outbox.go:201-252 | The holder of a lease publishes a sent message and returns a failed one, which is retired exactly when it is malformed and out of the attempts granted, or out of all attempts. |
| MessagingProgress.LostLeaseMarksNothing | internal/messaging/outbox.go:235-252 | A publisher whose lease was taken over, or whose row is settled, changes no row. |
| Rails.OneReference | internal/rails/processor.go:97-168 | All submissions of one operation carry one provider reference and one payload, although each worker submits the copy it read when it started or reread the operation. |
| Rails.RepeatedStart | internal/rails/processor.go:97-168 | Once an operation has been started, at any later time a start of it changes nothing and is answered by its row if and only if rail, reference and payload are the stored ones. |
| RailAnswers.OutcomesWereAnswered | internal/rails/processor.go:147-199 | In every run a row is succeeded or failed only because a submission or a lookup under its current token answered exactly that, with the stored response. |
| RailAnswers.AnswersArePersisted | internal/rails/processor.go:283-331 | An answer persisted at once is what the row says afterwards, with only a plain success or failure final, unless its token is superseded or an outcome is final; then nothing changes. |
| RailAnswers.RetriesExactly | internal/rails/processor.go:201-250 | A retry submits again exactly when the rail takes references as idempotency keys and the attempt is still unknown under the token that was read, with the same reference and payload. |
| RailAnswers.NewOperationIsStoredFirst | internal/rails/processor.go:97-147 | A new operation is stored in flight before anything is submitted, and exactly its request is submitted. |
| Rails.SubmittedOnce | internal/rails/processor.go:201-250 | A rail whose references are not idempotency keys never sees a second submission of an operation, under any interleaving and crash. |
| Rails.FirstOutcomeStays | internal/rails/processor.go:283-331 | The first final outcome of an operation and its response are never overwritten. |
| Rails.SupersededTokenWritesNothing | internal/rails/processor.go:283-331 | Whatever a worker with a superseded token still reports, at any later time, changes no row. |
| Rails.StepKeeps | internal/rails/processor.go:97-331 | Starting, submitting, looking up, persisting, retrying and crashing keep rows, tokens and submissions consistent, and no row goes back. |
| Exchange.Convert | internal/fx/service.go:87-115 | A conversion succeeds with exactly the quotient that meets the error bound of its rule, and fails exactly for inputs that are not positive and for quotients beyond 38 digits. |
| Exchange.RoundedExactly | internal/fx/service.go:87-115 | A result is what each rule computes if and only if it meets the error bound of the rule: floor and ceiling within one atom, half-even nearest with ties to even. |
| Exchange.ConvertMonotone | internal/fx/service.go:87-115 | More of the base never converts to less. |
| Exchange.RulesOrdered | internal/fx/service.go:99-114 | Floor, half-even and ceiling are ordered and at most one atom apart, equal exactly for exact results. |
| Exchange.RoundTripNeverGains | internal/fx/service.go:87-115 | Under Floor a round trip at the inverse rate never yields a gain. |
| Exchange.SplittingNeverGains | internal/fx/service.go:87-115 | Under Floor splitting an amount never yields a gain, and loses at most one atom. |
| Exchange.ConvertFails | internal/fx/service.go:87-115 | A conversion fails exactly for amounts that are not positive and for results beyond 38 digits. |

## Left out

- Command-line programs, gRPC and HTTP servers, configuration, observability, export and key-manager clients: wiring without properties of its own.
- SHA-256, HMAC, Ed25519 and JSON: in the protocol world and the escrow hand-off hashes and signatures are symbolic (a value is its own digest, a signature is membership in the set of payloads that were signed); in the audit and payload modules the hash is an arbitrary function and theorems ask that the texts at hand do not collide.
- Reconciliation queries, cashback repair, offline issue and redemption, authorization checks and account capabilities: their logic is in SQL text or single lookups.
- The external processor of the protocol world and the read-only accessors: single lookups.
- Wall-clock skew of the simulated network and the choice of dropped messages by percentage: the drop decision is an arbitrary function of sequence number and message.
- Runs.StepKeeps: AdvanceSaga is one atomic step, although the program releases its lock between the saga step and the payment.
- Delivery.DeliverKeeps: the network delivers only envelopes the world has sent, and certificates survive their JSON encoding unchanged.
- HandOffRuns.StepKeeps: assumes globally unique transfer identifiers and one database per region.
- Splitter.Split: texts are ASCII, so that trimming white space means the six ASCII white-space characters.
- Payments: posting keeps one signed balance per account and enforces non-negative balances only where an account asks for it; credit limits, posting-rule versions, row versions, outbox rows and account status are not modelled, and the account roles that the database finalizer checks are checked by the operations.
- PaymentDesk.Desk.Deposit: the deposit's own idempotency record is not modelled.
- CellRuns.EveryBackedRunStaysLevel: wallets and their authority come from account provisioning only; authority moved between regions by the escrow hand-off is not part of the cell.
- Rollout: one rollout, as in the program, so watermarks carry no generation of their own; equal digests stand for equal row sets.
- SagaRuns.EveryTraceIsOrdered: one saga, one coordinator; undoing a step that has no compensation counts as undone.
- Checkpoints: one book at a time; the signer, the row lock of the book and the early return of a checkpoint that already exists are not modelled.
- Payloads: only the documents named above are modelled; redemption effects, non-redemption proofs and evidence envelopes appear through their domain tags alone. Texts are sequences of bytes whose lengths respect the length prefixes.
- Messaging and Rails: modelled on values as state machines over their transactions, so update in place and the publisher's loop over a batch are not captured; message headers and request hashes stand for the message itself, and tokens and worker names are drawn fresh.
- Exchange: quotes, their expiry and the two-legged exchange posting are not modelled.
