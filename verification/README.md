# RaiFlow: state machines that have to survive replay, crash and retry

RaiFlow is a payment runtime for the Nano network. This project models the parts of it whose
correctness depends on what happens over time: a block that is delivered twice, a process that dies
between signing and broadcasting, two workers that want the same account, a client that reads its
stream in arbitrary pieces. Each part is a small state machine. One step is one SQLite transaction, or
one stretch of code between two awaits; a run is any sequence of steps, in any order; the theorems hold
in every state that some run reaches. A step that cannot happen in a state changes nothing.

Amounts are natural numbers, timestamps are natural numbers, hashes are the data they are computed from
(so equal hashes mean equal blocks), and signing is that hash. A clock, a random draw, the node's
answers, a lease that is or is not acquired, a storage pause: all these are inputs of a step.

Where the source changes fields in place, the model has a class whose methods do the same, and each
method's contract ties its result to the specification functions that the lemmas are about.

## What is where

- `Ledger` is the node: one chain of state blocks per account. A block is accepted if it names the
  account's frontier and its work is valid.
- `SendProtocol`, `SendSafety`, `SendTheorems`, `SendTwins` are outgoing sends with their durable signed
  intents; `SendOrchestrator` is the control flow of a tick, with a script saying how each await ends
  and what others did meanwhile, and `SendOutcomes` says which answers publish a send, fail it or leave
  it. `Refunds`, `RefundSafety` and `RefundOutcomes` put the refund reservation on top.
- `ReceiveProtocol`, `ReceiveSafety`, `ReceiveTheorems`, `ReceiveOrchestrator`, `ReceiveOutcomes` are the
  same for receives.
- `AccountLease` has the rule for leases with fencing tokens, and both stores.
- `DepositIngest` is the transaction that turns a confirmed block into rows and events; `IngestSafety`,
  `IngestInvariant`, `IngestTheorems`, `IngestHistory` are about its runs, together with cancellations,
  expiries and other events, and `IngestOutcomes` says which invoice a block goes to and what it does
  there. `WebhookJobs` adds the job that each event leaves for each subscriber.
  `IngestStore` is the transaction written statement by statement, and `InMemoryIngest` the second
  implementation, with its refinement proof.
- `WebhookOutbox`, `WebhookOutboxSafety` and `WebhookOutcomes` are the workers that deliver those jobs.
- `EventLog` has `list`, the pages of `listEvents`, and the walk along their cursors. `EventStream` is
  the printed stream and the client that parses it, `EventStreamStandard` reads the same text by
  section 9.2 of the WHATWG HTML Living Standard, `EventPump` is the server side.
- `Recovery` is the reconciliation of an account's history by cursor.
- `InvoiceAccounts` and `InvoiceAccountsInMemory` allocate derivation indices.
- `RpcSemaphore` is the semaphore in front of the node.

## Where the code promises less than one would like

- *Failed sends.* Nothing that a failed send ever broadcast can be accepted (`FailedNeverLands`). But
  the block it signed can still be on the ledger: a second send with the same source address,
  destination and amount, prepared on the same frontier, signs the identical block. Then one transfer can
  also stand for two published sends. `FailedStaysOffLedgerIff` and `EverySendHasItsOwnBlockIff` say that
  for any queue this can happen exactly if two of its sends are such twins. The sum of refunds on the
  ledger is bounded all the same.
- *Failed receives.* A receive whose broadcast may yet land can be marked failed, and land afterwards.
  An error before an operation has begun a broadcast counts as a failed attempt, although one of an
  earlier tick may be out: when the saved intent is read, or when the lease is looked up right before the
  broadcast. `ThrowingReadsFailALandingTask` is a run from an empty database that ends so, for any mix of
  the two. It takes exactly as many such reads, each followed by its count, as the task has retries left
  (`FailsIffReadsAreCounted`), and a failed task has such a broadcast exactly if one of them was counted
  (`FailedMayLandIff`). Other errors, and errors of other tasks, do not lead there.
- *Page limits.* Following `nextCursor` returns everything for exactly the limits 1 to 500
  (`WalksReturnAllIff`). At 501 and above the store is asked for 501 rows at most and no cursor comes
  back; at 0 and below the last event is never returned.
- *History recovery.* When the provider has forgotten the cursor, the pass goes on with the recent
  window, and deposits between the two are never handed to the sink (`ForgottenCursorLosesADeposit`).
  Exactly those are lost, but for one handed over before its cursor could not be written
  (`ReachesTheSinkIff`, `NothingIsLostIff`). Behind a cursor that the provider knows, a pass with a batch of one entry
  fetches only the cursor itself and never moves (`TipIsReachedIff`).
- *Event filters.* An empty filter selects everything in SQL but only empty fields in memory, and a
  cursor that is not a numeral is refused by SQL only (`StoresAgreeIff`).
- *Invoice accounts.* The in-memory store joins its two keys with a NUL character, so it can confuse
  pairs of keys if an account key contains one (`NulKeysDisagree`). It answers differently from SQL
  exactly when a request has the store key of an earlier answered one of another pair (`AgreeIff`).
  Invoice indices keep clear of managed ones only if the configured end of their range is at most 2^31
  (`NeverManagedIff`).

## Model

| member | source | states |
|---|---|---|
| SendTheorems.BroadcastsShareTheIntentHash | packages/runtime/src/send-orchestrator.ts:158-190 | In every run of ticks, crashes, lost leases and ambiguous replies, every block broadcast for a send has the hash of its one saved intent, and takes exactly the amount of its send from the source address to the destination |
| SendTheorems.IntentIsWriteOnce | packages/runtime/src/send-block-intents.ts:9-20 | Once saved, an intent names the same block for ever; only its work is ever replaced |
| SendTheorems.AtMostOneSpendPerSend | packages/runtime/src/send-orchestrator.ts:104-234 | The ledger holds at most one of the blocks broadcast for a send, at one position |
| SendTheorems.PublishedIsOnLedger | packages/runtime/src/send-orchestrator.ts:207-213 | `published` or `confirmed` means the send names its intent's hash and that block is on the ledger |
| SendTheorems.StatusMoves | packages/runtime/src/send-orchestrator.ts:136-234 | One step moves a status from queued to published or failed, or from published to confirmed, keeps a block hash once set, and changes nothing else of the send |
| SendTheorems.StatusesOnlyAdvance | packages/runtime/src/send-orchestrator.ts:66-234 | The same over any run |
| SendTheorems.FailedNeverLands | packages/runtime/src/send-orchestrator.ts:136-205 | A failed send stays failed, and in no continuation of the run does the ledger accept a block it broadcast |
| SendTheorems.FailedOnLedgerHasTwin | packages/runtime/src/send-orchestrator.ts:188-205 | If a failed send's signed block is on the ledger, another send with the same address, destination and amount put it there |
| SendTheorems.SameBlockMeansTwins | packages/runtime/src/send-orchestrator.ts:207-213 | Sends that name one ledger block ask for the same transfer |
| SendTheorems.DifferentSendsKeepApart | packages/runtime/src/send-orchestrator.ts:104-234 | If no two queued sends ask for the same transfer, failed blocks stay off the ledger and no block is shared |
| SendTwins.TwinLandsTheFailedBlock | packages/runtime/src/send-orchestrator.ts:115-134 | Two sends of the same transfer have a run in which one is failed and its block is on the ledger |
| SendTwins.TwinsShareABlock | packages/runtime/src/send-orchestrator.ts:164-168 | and a run in which both are published under one block |
| SendTwins.FailedStaysOffLedgerIff | packages/runtime/src/send-orchestrator.ts:136-205 | For any queue: failed blocks stay off the ledger in every run if and only if any two of its sends differ in address, destination or amount |
| SendTwins.EverySendHasItsOwnBlockIff | packages/runtime/src/send-orchestrator.ts:164-214 | For any queue: every published send has a block of its own in every run under exactly the same condition |
| SendSafety.StepKeepsInv | packages/runtime/src/send-orchestrator.ts:104-234 | Every step keeps: intents match their sends, broadcasts match intents, replaced JSON versions have invalid work, failed sends have only such versions, statuses agree with the ledger |
| SendSafety.IntentChangeKeepsBlocks | packages/runtime/src/send-orchestrator.ts:178-190 | Replacing the stored JSON keeps all that, because the version thrown away was rejected just before |
| SendOrchestrator.Orchestrator.Tick | packages/runtime/src/send-orchestrator.ts:66-83 | A tick is a run of the protocol that ends idle with nothing left to do. Each listed send whose lease is free gets what its script decides and keeps it to the end of the tick; one without its lease, or not listed, is left as it is; turns are missing only behind one in which the process died |
| SendOrchestrator.Orchestrator.PublishSendUnderLease | packages/runtime/src/send-orchestrator.ts:104-234 | For any stores and any script of awaits, the operation is a run of the protocol, publishes the send, fails it or leaves it exactly as the script decides, and writes to no other send; a published send names the hash of its saved intent |
| SendOutcomes.SavedIntentEndsIff | packages/runtime/src/send-orchestrator.ts:104-234 | With a saved intent: the send is published, under the intent's hash, exactly if it is read, the node takes or knows the block (at once, or with new work after a refusal) and the update returns; it is announced exactly if the event was emitted as well; it fails exactly if the node refuses both works and that update returns |
| SendOutcomes.NewIntentEndsIff | packages/runtime/src/send-orchestrator.ts:104-234 | Without one the same holds of the intent signed on the reported frontier, once it is saved; if the reported balance is too low the send fails exactly if the update returns, and without a usable answer it stays |
| SendOutcomes.BroadcastEndsIff | packages/runtime/src/send-orchestrator.ts:158-213 | From the first broadcast on: when the send is published, with which hash and announcement, and when it fails |
| SendOutcomes.FundedSendIsPublished | packages/runtime/src/send-orchestrator.ts:104-234 | A funded send whose awaits all answer is published under the hash of the block that spends its amount on the account's frontier, and announced |
| SendOutcomes.KnownBlockIsPublished | packages/runtime/src/send-orchestrator.ts:164-213 | After a crash behind the broadcast, the next operation finds the block on the ledger and publishes the send |
| SendOutcomes.QueuedIff | packages/storage/src/index.ts:1736-1758 | A send is queued unless its id or its idempotency key is taken |
| SendOutcomes.TickPolls | packages/runtime/src/send-orchestrator.ts:70-76 | A tick polls for the block of every published send |
| SendOutcomes.ConfirmedIff | packages/runtime/src/send-orchestrator.ts:243-257 | Once the block is on the ledger, the poll or the watcher confirms the send and writes nothing else |
| SendOutcomes.LandsIff | packages/runtime/src/send-orchestrator.ts:158-174 | A broadcast block with valid work that names the frontier can be taken by the ledger at any later time |
| SendOrchestrator.Orchestrator.PrepareIntent | packages/runtime/src/send-orchestrator.ts:110-154 | Without a saved intent: the intent signed for this send on the reported frontier is saved and returned, or, exactly if the reported balance is too low and the update returns, the send fails; on any other answer the send stays as it is |
| SendOrchestrator.Orchestrator.Sign | packages/runtime/src/send-orchestrator.ts:113-127 | No intent exactly if the balance on the reported frontier is below the amount; otherwise the intent that spends the amount on that frontier |
| SendOrchestrator.Orchestrator.Save | packages/runtime/src/send-orchestrator.ts:127-135 | The intent saved first is the one that is stored and used, exactly if the store answers |
| SendOrchestrator.Orchestrator.Broadcast | packages/runtime/src/send-orchestrator.ts:158-177 | The outcome of a broadcast is the node's reply if it is one the ledger allows; anything else leaves the send for a later tick, and neither writes to the stored sends |
| SendOrchestrator.Orchestrator.Hear | packages/runtime/src/send-orchestrator.ts:158-174 | What each reply of the node means for the broadcast, and its effect is the protocol's |
| SendOrchestrator.Orchestrator.Retry | packages/runtime/src/send-orchestrator.ts:175-205 | The stored JSON gets the new work under the same block hash only; the send fails exactly if the node refuses the new work, too, and the update returns |
| SendOrchestrator.Orchestrator.MarkFailed | packages/runtime/src/send-orchestrator.ts:139-152 | The send is failed exactly if the lease still holds and the update returns |
| SendOrchestrator.Orchestrator.Finish | packages/runtime/src/send-orchestrator.ts:207-233 | The send is published under the hash exactly if the update returns, and the confirmation poll starts only if the event was emitted as well |
| Ledger.BlockOccursOnce | packages/runtime/src/send-orchestrator.ts:158-174 | On linked chains no block occurs at two positions, so one hash is one transfer |
| Ledger.AppendKeepsLinked | packages/runtime/src/send-orchestrator.ts:158-174 | Accepting a block on the frontier keeps the chains linked |
| Refunds.RefundStore.Submit | packages/storage/src/index.ts:1844-1917 | The transaction equals its specification, whose acceptance and refusals the next five rows tell |
| RefundOutcomes.AcceptedIff | packages/storage/src/index.ts:1844-1917 | Under a new key a refund is accepted exactly if it describes a payment out of a stored deposit, the active refunds and its amount together are at most the deposit, and its ids are new; it is refused as exceeding the deposit exactly if they are above it; each other refusal has its own condition and writes nothing |
| RefundOutcomes.RefundableInFull | packages/storage/src/index.ts:1871-1879 | A deposit whose refunds have all failed can be refunded in full or in part, and not beyond |
| RefundOutcomes.ReusedKeyIff | packages/storage/src/index.ts:1855-1868 | Under a known key nothing is written; the stored refund is returned exactly if destination, amount and source address are the stored ones, and otherwise the refusal says which of them differs first |
| RefundOutcomes.UndescribedIsRefused | packages/storage/src/index.ts:1845-1854 | A request that does not describe a payment out of its deposit is refused, whatever its key |
| RefundOutcomes.AcceptedIsHeld | packages/storage/src/index.ts:1869-1912 | An accepted refund raises what its deposit holds back by its amount, and no other deposit's |
| RefundOutcomes.NothingHeldIff | packages/storage/src/index.ts:1871-1876 | A deposit holds nothing back exactly if none of its refunds does |
| RefundOutcomes.MovingOn | packages/storage/src/index.ts:1871-1876 | A send that moves on keeps what its refund holds, until it fails and gives all of it back |
| Refunds.RefundStore.SumActive | packages/storage/src/index.ts:1871-1876 | The sum over the deposit's refunds whose send is queued, published or confirmed |
| RefundSafety.ActiveRefundsWithinDeposit | packages/storage/src/index.ts:1869-1879 | In every run of queueing and sending, a deposit's active refunds never sum above it |
| RefundSafety.LandedRefundsWithinDeposit | packages/storage/src/index.ts:1869-1879 | The refund blocks on the ledger never sum above the deposit either, although a failed send gives its reservation back |
| RefundSafety.LandedRefundSpendsItsAmount | packages/storage/src/index.ts:1881-1912 | A refund has one ledger block at most, and it takes exactly the refund's amount |
| RefundSafety.ReplayReturnsTheSameRefund | packages/storage/src/index.ts:1856-1868 | The same key with the same parameters returns the same refund and send at any later time, and writes nothing |
| RefundSafety.QueueIsQueueSend | packages/storage/src/index.ts:1881-1900 | To the send protocol, queueing a refund is queueing a send |
| AccountLease.SqliteLeaseStore.Acquire | packages/storage/src/index.ts:706-722 | The conditional upsert follows the rule; a lease is granted exactly if no row of the address expires after now, and it is current exactly until the expiry asked for |
| AccountLease.SqliteLeaseStore.Renew | packages/storage/src/index.ts:728-734 | Only the current holder moves the expiry |
| AccountLease.SqliteLeaseStore.IsCurrent | packages/storage/src/index.ts:735-740 | Current means same owner, same token, not expired |
| AccountLease.SqliteLeaseStore.Release | packages/storage/src/index.ts:741-746 | Only the row's own owner and token release it |
| AccountLease.InMemoryLeaseStore.Acquire | packages/runtime/src/account-operation-executor.ts:79-87 | The in-memory store follows the same rule, with the same condition and currency |
| AccountLease.InMemoryLeaseStore.Renew | packages/runtime/src/account-operation-executor.ts:88-93 | likewise for renewal |
| AccountLease.InMemoryLeaseStore.IsCurrent | packages/runtime/src/account-operation-executor.ts:94-97 | likewise for the check |
| AccountLease.InMemoryLeaseStore.Release | packages/runtime/src/account-operation-executor.ts:98-103 | likewise for the release |
| AccountLease.AcquiredIff | packages/storage/src/index.ts:706-722 | A grant happens exactly on a free address, makes its lease current until its own expiry and every other lease of the address not current, and touches no other address |
| AccountLease.RenewedAndReleased | packages/storage/src/index.ts:728-746 | A current lease, and no other, is prolonged to exactly the new expiry; a released one is free at once for whoever asks |
| AccountLease.FreeIsGranted | packages/storage/src/index.ts:706-722 | In runs, too, asking for a free address is answered with a lease that is current until its expiry |
| AccountLease.AtMostOneCurrent | packages/storage/src/index.ts:705-748 | In every run under a clock that does not go back, two current grants on one address are the same grant |
| AccountLease.TokensStrictlyIncrease | packages/storage/src/index.ts:706-722 | Each grant on an address has a larger token than all earlier ones |
| AccountLease.DeadForever | packages/storage/src/index.ts:705-748 | A superseded, expired or released lease is never current again |
| AccountLease.DeadIsHarmless | packages/storage/src/index.ts:728-746 | It does not renew, and neither its renewal nor its release changes whether another grant is current |
| AccountLease.GuardedWritesAreFenced | packages/runtime/src/account-operation-executor.ts:54-59 | The `assertCurrent` checks that pass on an address never go back to an earlier holder |
| AccountLease.Operation.AssertCurrent | packages/runtime/src/account-operation-executor.ts:54-59 | A check passes exactly if the lease was not found lost before and is current; otherwise it throws, and finds the lease lost unless the read itself threw |
| AccountLease.Operation.Renew | packages/runtime/src/account-operation-executor.ts:34-50 | A renewal that is refused or throws marks the lease lost, and a lost lease is not renewed |
| AccountLease.RunOperation | packages/runtime/src/account-operation-executor.ts:23-71 | Without a lease nothing happens. With one, the operation's writes are those behind the checks that pass, it completes, with every write in order, exactly if each check falls before the expiry then in force, each renewal answers before it, nothing gives up and nobody takes the address over; afterwards the lease is not current at any time |
| AccountLease.CompletesIff | packages/runtime/src/account-operation-executor.ts:23-71 | A lease just granted carries its operation to the end exactly if everything happens in time, and then every write is made |
| AccountLease.WritesAreChecked | packages/runtime/src/account-operation-executor.ts:54-71 | Each write of an operation was made behind a check of its own at which the lease was current and had not been found lost |
| ReceiveTheorems.BroadcastsShareTheIntentHash | packages/runtime/src/receive-orchestrator.ts:133-150 | Every block broadcast for a receive task has the hash of its one saved intent, names the source and the account of its task, and adds exactly its amount to the balance |
| ReceiveTheorems.SourceIsReceivedOnce | packages/storage/src/index.ts:1087-1112 | A source block has at most one task, and the ledger holds at most one receive of it |
| ReceiveTheorems.PublishedIsOnLedger | packages/runtime/src/receive-orchestrator.ts:174-181 | `published` means `receiveBlockHash` is the intent hash and that block is on the ledger |
| ReceiveTheorems.RetriesAreBounded | packages/runtime/src/receive-orchestrator.ts:193-219 | `retryCount` is at most 3, and the status is `failed` exactly at 3 |
| ReceiveTheorems.TasksMove | packages/runtime/src/receive-orchestrator.ts:62-220 | The arrows between statuses; the count rises by one at most, and only on the way to pending or failed |
| ReceiveTheorems.UnknownOutcomeStaysSelectable | packages/runtime/src/receive-orchestrator.ts:62-91 | Unless a throwing read of this one task is counted while a broadcast of it may land, such a task is processing, published or confirmed, is listed by each tick whatever the minimum is, and is taken straight to another broadcast of its block |
| ReceiveTheorems.FailedNeverLands | packages/runtime/src/receive-orchestrator.ts:188-219 | If no such read was counted, the source of a failed task is not received on the ledger, then or later, whatever throws afterwards |
| ReceiveTheorems.FailedMayLandIff | packages/runtime/src/receive-orchestrator.ts:134-135 | In every run, a failed task has a broadcast that may land exactly if a read of its intent, or of its lease before the broadcast, threw and was counted while one could |
| ReceiveTheorems.ThrowingReadsFailALandingTask | packages/runtime/src/receive-orchestrator.ts:98-99 | A run from an empty database: an ambiguous broadcast, three ticks whose read of the intent or of the lease throws, the task failed, and then its block on the ledger |
| ReceiveTheorems.FailsIffReadsAreCounted | packages/runtime/src/receive-orchestrator.ts:188-219 | In every continuation, a task with a broadcast that may land has one retry more for each counted throwing read of its intent or lease, and is failed exactly if these use up its retries |
| ReceiveTheorems.AmbiguityIsReachable | packages/runtime/src/receive-orchestrator.ts:133-150 | A run from an empty database that ends with a broadcast of unknown outcome that the node would take |
| ReceiveSafety.StepKeepsInv | packages/runtime/src/receive-orchestrator.ts:62-244 | Every step keeps intents, broadcasts, statuses, counts and the ledger in agreement |
| ReceiveSafety.StepKeepsDead | packages/runtime/src/receive-orchestrator.ts:92-219 | Every step but the count of a throwing read keeps: a task goes back to pending or fails, or is about to count a failure, only if all its broadcasts have invalid work or a read threw |
| ReceiveSafety.StepKeepsVersions | packages/runtime/src/receive-orchestrator.ts:152-172 | Every step keeps: a broadcast version other than the stored one has invalid work |
| ReceiveOrchestrator.Orchestrator.ProcessNext | packages/runtime/src/receive-orchestrator.ts:62-90 | A tick takes the first listed task whose lease is free and that has a saved intent or at least the minimum; it publishes that task, counts an attempt or leaves it processing, and makes broadcasts, exactly as the script decides, touches no other, and is a run of the protocol; if there is no such task nothing changes |
| ReceiveOrchestrator.Orchestrator.ProcessTaskUnderLease | packages/runtime/src/receive-orchestrator.ts:92-220 | For any script of awaits the operation is a run of the protocol, publishes the task, counts one attempt or leaves it, and makes broadcasts, exactly as the script decides, and writes to no other task or intent; a published task names the hash of its saved intent |
| ReceiveOutcomes.SavedIntentEndsIff | packages/runtime/src/receive-orchestrator.ts:92-220 | With a saved intent that is read: its JSON is broadcast if the check passes and the call is answered; the task is published, under the intent's hash, exactly if the node takes or knows the block (at once, or with new work) and the update returns; an attempt is counted exactly if the first check throws or both works are refused, and the update returns |
| ReceiveOutcomes.NewIntentEndsIff | packages/runtime/src/receive-orchestrator.ts:92-220 | Without one the same holds of the intent signed on the reported frontier, once it is saved; before that, exactly an error counts as an attempt and nothing is broadcast |
| ReceiveOutcomes.BroadcastEndsIff | packages/runtime/src/receive-orchestrator.ts:133-181 | From the first broadcast on: what is broadcast, when the task is published and when an attempt is counted |
| ReceiveOutcomes.ReceiveIsPublished | packages/runtime/src/receive-orchestrator.ts:92-181 | A task whose awaits all answer is broadcast and published under the hash of the block that receives its source on the account's frontier |
| ReceiveOutcomes.KnownBlockIsPublished | packages/runtime/src/receive-orchestrator.ts:139-181 | After a crash behind the broadcast, the next operation finds the block and publishes the task |
| ReceiveOutcomes.EnqueuedIff | packages/storage/src/index.ts:1087-1112 | A source gets a task unless the id is taken or the source has one |
| ReceiveOutcomes.ConfirmedIff | packages/runtime/src/receive-orchestrator.ts:227-242 | Once its block is on the ledger, the watcher confirms a published task and writes nothing else |
| ReceiveOutcomes.LandsIff | packages/runtime/src/receive-orchestrator.ts:133-150 | A broadcast block with valid work that names the frontier can be taken by the ledger at any later time |
| ReceiveOrchestrator.Orchestrator.PrepareIntent | packages/runtime/src/receive-orchestrator.ts:100-130 | Without a saved intent: the intent signed for this task on the reported frontier is saved and returned; an error up to then counts as a failed attempt exactly if the update returns |
| ReceiveOrchestrator.Orchestrator.Save | packages/runtime/src/receive-orchestrator.ts:121-130 | The intent saved first is the one that is stored and used; an error counts as a failed attempt |
| ReceiveOrchestrator.Orchestrator.Broadcast | packages/runtime/src/receive-orchestrator.ts:133-158 | A check of the lease that throws before the first broadcast leads to a failed attempt; once a broadcast has begun, the outcome is the node's reply if it is one the ledger allows, and anything else leaves the receive processing |
| ReceiveOrchestrator.Orchestrator.Hear | packages/runtime/src/receive-orchestrator.ts:133-150 | What each reply of the node means, and its effect is the protocol's |
| ReceiveOrchestrator.Orchestrator.ReplaceWork | packages/runtime/src/receive-block-intents.ts:15-20 | The JSON is replaced only under the same block hash |
| ReceiveOrchestrator.Orchestrator.Retry | packages/runtime/src/receive-orchestrator.ts:152-173 | Exactly a second work rejection counts as a failed attempt, if the update returns; any other end leaves the row alone |
| ReceiveOrchestrator.Orchestrator.CountUnderLease | packages/runtime/src/receive-orchestrator.ts:190-219 | If the lease still holds and the update returns, the third counted attempt fails a receive and earlier ones return it to pending; otherwise the row is left alone |
| ReceiveOrchestrator.Orchestrator.Finish | packages/runtime/src/receive-orchestrator.ts:175-181 | The receive is published under the hash exactly if the update returns |
| IngestTheorems.ReplaysAreAbsorbed | packages/storage/src/index.ts:1389-1567 | A trace with duplicates, refusals, cancellations and expiries gives the same deposits, payments, invoices and events as the trace with only the first successful ingest of each hash |
| IngestTheorems.FirstOnlyIsFirst | packages/storage/src/index.ts:1389-1567 | That trace ingests no hash twice, and each hash it ingests is stored |
| IngestTheorems.IngestCases | packages/storage/src/index.ts:1389-1567 | An ingest either changes nothing, or stores a deposit without payment, or pays an open invoice, with the disposition that the new total gives |
| IngestTheorems.TotalsAndStatuses | packages/storage/src/index.ts:1504-1526 | An invoice's total is the sum of its confirmed payments, an open one does not meet its policy, a completed one does |
| IngestTheorems.PaymentsAreDeposits | packages/storage/src/index.ts:1480-1500 | A hash has a payment exactly if its deposit is matched, partial or excess, for the same invoice and amount |
| IngestTheorems.ClosedInvoicesAreFrozen | packages/storage/src/index.ts:1423-1482 | Once an invoice has left `open`, its row never changes |
| IngestTheorems.DepositEventsExactlyOnce | packages/storage/src/index.ts:1464-1478 | One `deposit.observed` for each stored hash, and no other |
| IngestTheorems.PaymentEventsExactlyOnce | packages/storage/src/index.ts:1529-1550 | One `invoice.payment_received` and one `invoice.payment_confirmed` for each payment, right behind the `deposit.observed` of its block |
| IngestTheorems.CompletionEventsExactlyOnce | packages/storage/src/index.ts:1551-1564 | One `invoice.completed` for each completed invoice, right behind the events of the payment that completed it |
| IngestSafety.ReplayIsAbsorbed | packages/storage/src/index.ts:1389-1567 | In every reachable state, a refused block or a stored hash changes nothing |
| IngestInvariant.StepKeepsInv | packages/storage/src/index.ts:1389-1567 | Every operation keeps rows and log in agreement |
| IngestHistory.DepositsComeInPhases | packages/storage/src/index.ts:1418-1433 | Over any run an invoice's dispositions are partial ones, then at most one that fills or overfills it (or, for an exact invoice, any number of excess ones), then late ones |
| IngestHistory.OverpaidExactNeverCompletes | packages/storage/src/index.ts:1510-1514 | An exact invoice that was overpaid once is never completed, whatever follows |
| IngestHistory.OnlyTheLastPaymentOverfills | packages/storage/src/index.ts:1510-1514 | An at-least invoice that met its amount was below it before its last payment |
| IngestStore.Database.IngestBlock | packages/storage/src/index.ts:1389-1567 | The transaction, statement by statement, gives the specified tables and result, the events it returns are those it appended, and the outbox has their jobs |
| IngestStore.Database.FindInvoice | packages/storage/src/index.ts:1390-1415 | The invoice of a block, and each reason to refuse it, as specified; which one that is, `IngestOutcomes.CandidateIsOldest` and `RefusedIff` say |
| IngestOutcomes.CandidateIsOldest | packages/storage/src/index.ts:1392-1399 | The invoice found for an address pays it, no listed invoice that does is older, and of equally old ones it stands first; none is found exactly if none pays the address; the status plays no part |
| IngestOutcomes.EveryInvoiceIsListed | packages/storage/src/index.ts:1392-1394 | In every run the list holds each invoice exactly once |
| IngestOutcomes.RefusedIff | packages/storage/src/index.ts:1404-1415 | A stored block is never refused; a new one exactly while storage is paused, or once its account has as many deposits as the cap |
| IngestOutcomes.UnmatchedIsNoted | packages/storage/src/index.ts:1418-1478 | A new block to an address that no invoice has is noted as unmatched and books nothing |
| IngestOutcomes.LateIsNoted | packages/storage/src/index.ts:1418-1478 | A new block whose oldest invoice is not open is late for that invoice, even if a younger one is open, and books nothing |
| IngestOutcomes.PaymentIsBooked | packages/storage/src/index.ts:1418-1564 | A new block whose oldest invoice is open raises its total by the amount; disposition, payment row, completion and events follow from the new total, and no other invoice changes |
| IngestOutcomes.TypeTellsTheEvent | packages/storage/src/index.ts:1464-1564 | In every log the type of an event tells whether the ingest wrote it and what it is about |
| IngestOutcomes.TaskIff | packages/storage/src/index.ts:1369-1387 | A block without a task gets one exactly if it has not been received and its recipient is custodial, with the index of the invoice account before that of the managed one |
| IngestOutcomes.CreatedIff | packages/storage/src/index.ts:883-893 | An invoice is created open, unpaid, under an id of its own, and listed last |
| IngestOutcomes.LeavesOpenIff | packages/storage/src/index.ts:900-919 | An open invoice expires from its expiry time on, and can be canceled at any time; one that is not open stays as it is |
| IngestStore.Database.DispositionOf | packages/storage/src/index.ts:1418-1433 | The disposition from the prior total |
| IngestStore.Database.StoreDeposit | packages/storage/src/index.ts:1435-1460 | The deposit row, inserted or completed |
| IngestStore.Database.EnsureReceiveTask | packages/storage/src/index.ts:1369-1387 | A receive task for a custodial recipient, once per source |
| IngestStore.Database.RecordPayment | packages/storage/src/index.ts:1481-1500 | The payment row, once per hash |
| IngestStore.Database.UpdateInvoice | packages/storage/src/index.ts:1504-1526 | Total and status, re-summed |
| IngestStore.Database.AnnouncePayment | packages/storage/src/index.ts:1527-1564 | The payment and completion events the log does not have yet |
| IngestStore.Database.SumConfirmed | packages/storage/src/index.ts:1504-1507 | The sum of an invoice's confirmed payments |
| IngestStore.Database.Append | packages/storage/src/index.ts:1352-1367 | An event and one job for each endpoint that subscribes |
| IngestStore.Database.ExpireOne | packages/runtime/src/runtime.ts:1840-1856 | An invoice is expired only if it is still open and due, and announced by a second write, which a dying process may not get to |
| IngestStore.Database.RunExpiryCheck | packages/runtime/src/runtime.ts:1836-1857 | Afterwards every due invoice is expired, every other is as before, and each expiry is announced and enqueued; if the process dies after some writes, fewer are expired, and at most the last of them lacks its event |
| WebhookJobs.OneJobPerEventAndSubscriber | packages/storage/src/index.ts:1274-1290 | In every state the outbox holds exactly one job for each event and each endpoint that subscribes to it and was registered before it, and no other |
| WebhookJobs.JobsForOneEvent | packages/storage/src/index.ts:1268-1290 | One event leaves exactly one job per subscribing endpoint |
| WebhookJobs.SubscribedIff | packages/storage/src/index.ts:1268-1272 | An endpoint gets an event if a filter is a star, the type itself, or a prefix of it that ends with a dot, followed by a star; no other filter selects anything |
| WebhookJobs.LogGrows | packages/storage/src/index.ts:1352-1367 | No operation removes or changes a logged event |
| WebhookJobs.TablesIgnoreWebhooks | packages/storage/src/index.ts:1274-1290 | Endpoints do not disturb the tables |
| InMemoryIngest.InMemoryRefinesTransactional | packages/runtime/src/runtime.ts:1674-1830 | For every sequential trace the in-memory path ends with the deposits, payments and invoices of the transactional one, its processed set is the stored hashes, and the events are the same in the same order but for their timestamps |
| InMemoryIngest.SameIngest | packages/runtime/src/runtime.ts:1729-1830 | For one new block the running total and the re-summed total do the same |
| InMemoryIngest.HandleSimulates | packages/runtime/src/runtime.ts:1674-1688 | One confirmed block keeps the two sides in step, replays included |
| InMemoryIngest.Runtime.Handle | packages/runtime/src/runtime.ts:1674-1688 | Processed hashes are skipped, dust is not remembered |
| InMemoryIngest.HandledIff | packages/runtime/src/runtime.ts:1674-1688 | Dust and processed hashes change nothing but that a processed hash stays remembered; any other block is ingested and remembered |
| InMemoryIngest.Runtime.IngestConfirmedBlock | packages/runtime/src/runtime.ts:1690-1830 | The in-memory path as it updates its stores; by `InMemoryIngest.SameIngest` its invoice, disposition and total are those of the transaction |
| InMemoryIngest.Runtime.SaveDeposit | packages/runtime/src/runtime.ts:1737-1766 | `createIfAbsent` and the `deposit.observed` event |
| InMemoryIngest.Runtime.Credit | packages/runtime/src/runtime.ts:1769-1828 | Payment, running total, events, and completion |
| WebhookOutboxSafety.OneUnexpiredClaim | packages/storage/src/index.ts:2008-2023 | No job is held under two unexpired claims, with any number of workers |
| WebhookOutboxSafety.OnlyTheOwnerRecords | packages/storage/src/index.ts:2053-2071 | An attempt is recorded just when its worker still owns the job, under the number after the recorded ones, and gives the job up; otherwise nothing changes |
| WebhookOutboxSafety.UnexpiredHolderRecords | packages/storage/src/index.ts:2053-2071 | While its lease has not expired, a holder can record |
| WebhookOutboxSafety.AttemptsAreNumbered | packages/runtime/src/webhook-outbox-worker.ts:62-85 | The recorded attempts are exactly 1 to the attempt count, all but the last are retries, the last agrees with the status, and the count is within the limit |
| WebhookOutboxSafety.FinalJobsAreFrozen | packages/storage/src/index.ts:2053-2071 | A delivered or failed job never changes |
| WebhookOutboxSafety.RecordingUsesUpAttempts | packages/runtime/src/webhook-outbox-worker.ts:70-72 | Each recorded attempt lowers the attempts that remain, no other step changes them, and none remain exactly for a final job |
| WebhookOutboxSafety.StepKeepsInv | packages/storage/src/index.ts:2008-2090 | Every step keeps rows, recorded attempts and holdings in agreement |
| WebhookOutcomes.DueIff | packages/storage/src/index.ts:2009-2014 | A waiting job is due from its next attempt on, one in delivery from the end of its lease on, one that has ended never |
| WebhookOutcomes.SelectionExists | packages/storage/src/index.ts:2009-2014 | Some choice of due jobs is always possible, and it is empty only if nothing is due |
| WebhookOutcomes.ClaimHolds | packages/storage/src/index.ts:2008-2023 | A free worker holds exactly the rows it chose, for thirty seconds and with the attempt count it read |
| WebhookOutcomes.AttemptDecides | packages/runtime/src/webhook-outbox-worker.ts:62-85 | A success ends the job as delivered, a terminal error or the last allowed attempt as failed, any other error makes it wait until the retry time; the attempt is recorded under its number |
| WebhookOutcomes.DeliveredAtOnce | packages/runtime/src/webhook-outbox-worker.ts:42-85 | A new job that a free worker claims and delivers is done after one attempt |
| WebhookOutcomes.BackoffDoubles | packages/runtime/src/webhook-outbox-worker.ts:87-90 | One second at first, then twice as long each time, and never more than a minute |
| WebhookOutcomes.DelayIsRounded | packages/runtime/src/webhook-outbox-worker.ts:87-90 | The delay is that base times the drawn factor, rounded to whole milliseconds |
| WebhookOutbox.OutboxStore.ClaimReady | packages/storage/src/index.ts:2008-2023 | The selected rows, and only those still due, are leased to the worker |
| WebhookOutbox.OutboxStore.RecordAttempt | packages/storage/src/index.ts:2053-2090 | The conditional update and the delivery row |
| WebhookOutbox.Worker.Deliver | packages/runtime/src/webhook-outbox-worker.ts:62-85 | Number, status and retry time of one attempt |
| WebhookOutbox.DelayIsBounded | packages/runtime/src/webhook-outbox-worker.ts:87-90 | The delay is within a quarter of the doubling base, between 750 and 75000 milliseconds |
| EventLog.NumberOfText | packages/runtime/src/runtime.ts:1402-1402 | A cursor reads back as the number it was printed from |
| EventLog.MatchingOnly | packages/storage/src/index.ts:1969-1987 | A query selects exactly the events behind the cursor that pass its filters |
| EventLog.MatchingBehind | packages/storage/src/index.ts:1969-1987 | Starting over behind the n-th match leaves exactly the later matches |
| EventLog.PageTakesTheNext | packages/runtime/src/runtime.ts:1393-1404 | For limits 1 to 500 a page is the next matches, and has a cursor exactly if there are more |
| EventLog.WalkIsComplete | packages/runtime/src/runtime.ts:1393-1404 | Following the cursor, with appends between the pages, collects a gapless beginning of the matches; a walk that ended has all of them as of its last page |
| EventLog.LargeLimitsStopShort | packages/runtime/src/runtime.ts:1397-1399 | Above 500, 502 events are not all returned |
| EventLog.SmallLimitsStopShort | packages/runtime/src/runtime.ts:1397-1400 | Below 1, a single event is not returned |
| EventLog.WalksReturnAllIff | packages/runtime/src/runtime.ts:1393-1404 | Walks return everything for exactly the limits 1 to 500 |
| EventLog.InMemoryEvents.Append | packages/runtime/src/stores.ts:91-94 | Events are numbered from 1 without gaps |
| EventLog.InMemoryEvents.Select | packages/runtime/src/stores.ts:95-102 | The in-memory list, for all filters and cursors, with the number that a cursor is read as |
| EventLog.StoresAgreeIff | packages/runtime/src/stores.ts:95-102 | Both stores answer a query alike on every log and for every limit exactly if no filter is empty and the cursor is absent, empty or a numeral |
| EventStream.StreamClient.Read | packages/raiflow-sdk/src/resources/Events.ts:26-36 | After each chunk the client stands where one pass over everything received would leave it |
| EventStream.StreamClient.Deliver | packages/raiflow-sdk/src/resources/Events.ts:32-35 | The complete frames of one turn, up to the first that is not JSON |
| EventStream.SplitOfConcat | packages/raiflow-sdk/src/resources/Events.ts:29-31 | Splitting what was left over together with more text continues the split |
| EventStream.RoundTrip | packages/raiflow-sdk/src/resources/Events.ts:29-35 | Any events interleaved with keepalives, printed as the pump prints them, are read back exactly, in order, with nothing left over |
| EventStream.PartialRoundTrip | packages/raiflow-sdk/src/resources/Events.ts:29-35 | While text is missing, a beginning of them has been read |
| EventStream.ReadAll | packages/raiflow-sdk/src/resources/Events.ts:24-36 | The same for the text cut into arbitrary chunks |
| EventStreamStandard.StandardClientAgrees | packages/runtime/src/handler.ts:697-700 | A client that follows section 9.2 of the WHATWG HTML Living Standard gets one message per event, with the sequence number as its last event id |
| EventPump.StreamPump.Pump | packages/runtime/src/handler.ts:692-707 | One pass prints exactly the next events, at most a hundred, and a keepalive, and moves the cursor to the last of them; a malformed cursor ends the stream |
| EventPump.PassKeepsPlace | packages/runtime/src/handler.ts:692-707 | A pass keeps the printed events and those behind the cursor a partition of the log |
| EventPump.PumpAll | packages/runtime/src/handler.ts:692-710 | Over a growing log the pump prints a gapless beginning; once the log stands still, a pass per hundred events prints all of it |
| EventPump.Subscribe | packages/runtime/src/handler.ts:685-713 | Pump and client together: whatever part of the text has arrived, in whatever pieces, the client has a gapless beginning of the log behind its cursor |
| Recovery.NothingElseIsSkipped | packages/watcher/src/recovery.ts:29-76 | Between the entry scanned first and the cursor, every receive that no pass jumped over has a cemented source, and every one of them sent to this account reached the sink |
| Recovery.ReachesTheSinkIff | packages/watcher/src/recovery.ts:29-76 | A deposit has reached the sink exactly if it lies between the entry scanned first and the cursor and no pass jumped over it, or a pass could not write the cursor behind it, as can be told before each pass |
| Recovery.NothingIsLostIff | packages/watcher/src/recovery.ts:29-76 | No deposit between the entry scanned first and the cursor is lost exactly if no pass with a forgotten cursor jumped over one that had not been handed over before |
| Recovery.ForgottenCursorLosesADeposit | packages/watcher/src/recovery.ts:43-47 | Two passes after which a deposit is behind the cursor and was never handed to the sink |
| Recovery.CursorNeverMovesBack | packages/watcher/src/recovery.ts:29-76 | Over successive passes on a growing history the cursor only moves forward, also when the provider has forgotten it, and what the sink got only grows |
| Recovery.PassKeepsInv | packages/watcher/src/recovery.ts:29-76 | One pass moves the cursor forward, and adds what it jumps over to what may be unsettled between the entry scanned first and the cursor |
| Recovery.PassAdvances | packages/watcher/src/recovery.ts:29-76 | With nothing to stop it, a pass comes `batch - 1` entries nearer to the tip behind a known cursor, and gets there at once from an absent or forgotten one; with too small a batch it does not move |
| Recovery.TipIsReachedIff | packages/watcher/src/recovery.ts:29-76 | From any cursor or none, repeated passes reach the tip exactly if the provider retains something and the batch holds two entries, or one while the cursor is not known |
| Recovery.AccountHistoryRecovery.Pass | packages/watcher/src/recovery.ts:29-76 | One pass equals its specification and leaves other accounts' cursors alone |
| Recovery.AccountHistoryRecovery.EntriesToScan | packages/watcher/src/recovery.ts:30-51 | The entries behind the cursor, or the recent window |
| Recovery.AccountHistoryRecovery.Walk | packages/watcher/src/recovery.ts:53-75 | The loop over the entries, up to the first that stops it |
| Recovery.StopsIff | packages/watcher/src/recovery.ts:53-80 | A pass stops at a receive or open block whose source is missing, unreachable or not cemented, or whose deposit the sink refuses, and behind an entry whose cursor cannot be written; nothing else stops it |
| Recovery.DepositIs | packages/watcher/src/recovery.ts:54-70 | A deposit is a receive or open block of a cemented send to this account, and the sink gets the source's hash, sender and amount |
| Recovery.RecentIsNewest | packages/watcher/src/recovery.ts:43-51 | Without a head the node answers with the newest entries it retains, newest first |
| InvoiceAccounts.TableIsInjective | packages/storage/src/index.ts:1014-1046 | Whatever ranges are asked for, no index is given out twice and no pair of keys has two accounts |
| InvoiceAccounts.IndicesAscend | packages/storage/src/index.ts:1029-1035 | With one range, indices only go up and stay inside it |
| InvoiceAccounts.SamePairSameAccount | packages/storage/src/index.ts:1021-1026 | A pair with an invoice key gets the same account whenever it is asked for again |
| InvoiceAccounts.NullKeysAreFresh | packages/storage/src/index.ts:1021-1041 | Without an invoice key every request gets an index of its own |
| InvoiceAccounts.ManagedIndex | packages/model/src/index.ts:9-13 | Managed indices lie from 2^31 up to 2^32 |
| InvoiceAccounts.EveryManagedIndexOccurs | packages/model/src/index.ts:9-13 | and each of them belongs to some hash |
| InvoiceAccounts.NeverManagedIff | packages/runtime/src/runtime.ts:377-382 | In every run invoice indices keep clear of managed ones exactly if their range does |
| InvoiceAccounts.SqliteInvoiceAccounts.Resolve | packages/storage/src/index.ts:1014-1046 | The transaction equals its specification |
| InvoiceAccounts.ResolvedIff | packages/storage/src/index.ts:1014-1046 | A known pair gets its account; any other request the index behind the largest one taken in its range, or the first, and is refused exactly if the range is empty or its last index is taken |
| InvoiceAccountsInMemory.InMemoryInvoiceAccounts.Resolve | packages/runtime/src/runtime.ts:177-198 | The in-memory operation equals its specification |
| InvoiceAccountsInMemory.NoCollisionMeansAgreement | packages/runtime/src/runtime.ts:166-198 | Without colliding keys both stores answer every request alike, an exhausted range included |
| InvoiceAccountsInMemory.AgreeIff | packages/runtime/src/runtime.ts:166-198 | Both stores answer every request of a trace alike, an exhausted range included, exactly if no request has the store key of an earlier answered one of another pair |
| InvoiceAccountsInMemory.AgreeWithoutNul | packages/runtime/src/runtime.ts:172-174 | Account keys without NUL are enough |
| InvoiceAccountsInMemory.NulKeysDisagree | packages/runtime/src/runtime.ts:172-174 | Two requests on which the stores differ |
| RpcSemaphore.Semaphore.Acquire | packages/rpc/src/index.ts:136-144 | A free slot is taken, otherwise the caller queues |
| RpcSemaphore.Semaphore.Release | packages/rpc/src/index.ts:146-153 | The slot goes to the first waiter, or becomes free |
| RpcSemaphore.ArrivalIff | packages/rpc/src/index.ts:136-144 | A call that arrives gets a free slot at once, or waits behind all others |
| RpcSemaphore.SlotsAreFairAndBounded | packages/rpc/src/index.ts:130-154 | In every interleaving the slots in use are the holders and never too many, nobody waits while one is free, and slots are granted in the order of arrival |
| RpcSemaphore.WaitersAreServed | packages/rpc/src/index.ts:242-251 | With at least one slot, whoever releases passes the slot to the longest-waiting caller |

## Left out

- IngestTheorems.ReplaysAreAbsorbed: `updatedAt` is not a column of the model, because a replayed payment rewrites it and nothing else.
- IngestTheorems.DepositEventsExactlyOnce: rows written before the atomic ingest existed (payments without deposits, deposits without events) are handled by the same branches of the model but do not occur in runs from an empty database.
- SendTheorems.StatusesOnlyAdvance: nothing is said about progress, because a send whose frontier was used up by another one stays queued for ever.
- SendSafety.StepKeepsInv: the only blocks that land on a managed chain are its receives and the broadcasts of its sends; spends or changes of representative signed elsewhere are not steps, and the representative is fixed, which is what makes twins sign the same block.
- SendTheorems.FailedNeverLands: the steps assume one orchestrator per store and that `assertCurrent` and the write behind it are one step, as the `processing` flag and the lease intend; two processes that race over one status are not modelled.
- ReceiveTheorems.FailedNeverLands: the same, and no other wallet signs receives for these accounts.
- ReceiveOrchestrator.Orchestrator.Save: a store that saves the intent and then throws is a step of the protocol (`SaveThrows`), but the script of the class does not choose it.
- InMemoryIngest.InMemoryRefinesTransactional: calls do not overlap, no store throws, and the two budgets of the transactional store are out of reach.
- EventStream.ReadAll: chunks are text; the decoding of UTF-8 across chunk borders and the JSON library are not modelled, only that it reads back what it wrote and escapes line breaks.
- EventLog.InMemoryEvents.Select: what JavaScript's `Number` makes of a cursor that is not a numeral is an input.
- WebhookOutbox.Worker.Deliver: the HTTP request, its signature and its timeout are an outcome of the step, and the attempts of one batch are steps in any order.
- WebhookJobs.OneJobPerEventAndSubscriber: an endpoint that is deleted takes its jobs with it, and its attempts as a worker sees them are not modelled.
- RpcSemaphore.WaitersAreServed: a promise is resolved at once; the queue of microtasks is not modelled.
- Recovery.ReachesTheSinkIff: each source is received at most once in a history, as on the ledger.
- Recovery.AccountHistoryRecovery.Pass: an unknown head is answered with no entries; whatever a node sends instead is discarded in the same way unless it contains the cursor.
- Fields that only describe (memo, metadata, timestamps of rows, failure reasons, random ids) are not columns of the model.
- AccountLease.RunOperation: a write is a name in a list; to the send and receive protocols a lease is something that may be found lost at any await.
- The cached frontier and balance of an account row after a published send, and the sweep of invoice accounts.
- `send.confirmed` and `receive.confirmed` events, which can be emitted more than once.
- Size measurement of the database: the global pause is an input, and only the cap per account is computed.
- Migrations, idempotency keys of the API, HTTP routing, configuration, the watcher's sockets, endpoint failover and the node's transport.
- Custody, proof of work and address parsing: signing is the hash, and work is valid or not.
