# FlowRule, modelled and verified in Dafny

FlowRule is an event runtime: workers take events from a broker, evaluate rules on them inside a
storage transaction, and publish the resulting effects from an outbox. This project models the
protocols its correctness rests on and proves what holds in every run of them.

`dafny verify dfyconfig.toml` verifies the whole project.

## How the model is built

**Concurrent parts are transition systems.** Every SQL statement, lock-protected block and channel
operation is one atomic step; any number of workers interleave their steps. For each system there is
an invariant, a lemma that every step keeps it, and theorems about every state of every run. Beside
each system stands a class whose methods are the source's routines: each statement is a method proved
to be a step of the system, and the composite routines call `Yield` wherever others may run. A ghost
`trace` holds the run so far and ends in the object's state, so the theorems about runs apply to it.
`Yield` extends it; what it allows is justified by an `OthersInterfere` or `OthersLeaveAlone` lemma: it
is what any step of somebody else does. The table below lists the composite routines and leaves out
the methods that are one step each.

| module | what it models |
|---|---|
| `Leases` | shard lease rows and the SQL on them |
| `EventProtocol`, `EventSafety`, `EventTheorems`, `EventProgress`, `EventService` | fenced, deduplicated event processing and the settlement of deliveries |
| `KeyQueueSteps`, `KeyQueueSafety`, `KeyQueueTheorems`, `KeyQueueOrigins`, `KeyQueueShutdown`, `KeyQueueObject` | the per-key queue with its global semaphore |
| `DeliveryFlow` | one process: its key queue and its deliveries in the event system, joined |
| `OutboxProtocol`, `OutboxSafety`, `OutboxPublisher`, `OutboxClaims`, `OutboxAttempts`, `OutboxWitness` | claiming and settling outbox effects |
| `Rebalance`, `RebalanceTheorems`, `LeaseManagers` | the lease managers of a fleet |
| `Predicates`, `RuleSets` | rule validation, compilation, evaluation and storage |
| `Identity` | the texts that execution and effect identities are digests of |
| `ShardHash`, `Backoff`, `FetchRotation`, `FlowLayout` | shard hashing, retry delays, consumer rotation, the console's graph layout |
| `Sorting`, `Powers` | shared helpers |

**What is a parameter.** Clock readings, send results, statement failures, lost replies, cancellation,
leaf comparison, effect building and the store's tie-break between equal rows are parameters or
nondeterministic choices. A worker's own idea of its shard and fencing token is arbitrary. SHA-256 is
taken to be injective, so identities are represented by the texts that are hashed.

**Assumptions about storage.** Statements are atomic and read committed data. A row locked with
FOR SHARE cannot be updated until the transaction ends. An insert with ON CONFLICT DO NOTHING is not
enabled while another open transaction holds an uncommitted row with the same key: the routine waits
for it, and the wait can end in a storage error. The bulk lease renewal appears in the event system as
single renewals, one per row.

## Where the code does not meet the obvious expectation

- **Effects can be lost to identity clashes.** Effect identities join their fields with `|` and no
  length, and duplicates are dropped silently. `CommitStoresPlan` states exactly when a commit stores its
  whole plan: if and only if the plan's identities are free. `BarredNamesCollide` and
  `SubscriptionNameCollides` give the clashes; `PlainEventsLoseNothing` shows that plain names exclude them.
- **A lost reply can delete a quarantine entry.** When the statement that quarantines an effect takes
  effect but reports an error, the publisher deletes the entry it had just saved.
  `QuarantineEntryKeptIff` states that the entry survives if and only if the reply arrived;
  `LostReplyDeletesEntry` gives a run.
- **Stop can leave accepted deliveries behind.** It waits for submitters, not for the channels.
  `StopCanLeaveAnItem` gives a run for every queue; `StopProcessesAllIff` states exactly when everything
  accepted is processed; `LeftBehind` shows that a delivery left behind is never settled by the process,
  so it is for the broker to deliver it again.
- **One rebalancing round is not always enough.** `OneRoundSufficesIff` states exactly when it is: if and
  only if no manager starts above the target. `OneRoundCanLeaveAGap` is an instance, and
  `TwoRoundsCoverTheFleet` shows that a second round always suffices.
- **Empty predicate lists do not survive storage.** `StorageRoundTripIff` gives the exact condition,
  which the compiler's check guarantees; `EmptyListIsLost` shows a change of meaning without it.
- **The decision hash depends on the order of the source.** It covers the hash of the source text.
  `DecisionTextFollowsSource` states that permuted rules give equal evaluations, but equal decision
  hashes if and only if the source texts are equal.

## Model

| member | source | states |
|---|---|---|
| `EventTheorems.AtMostOneExecution` | internal/services/events/service.go:57-113 | In every run, two commits for the same tenant and event, seen at any two points, are the same commit. |
| `EventTheorems.InboxRecordsCommits` | internal/adapters/postgres/inbox.go:24-114 | In every reachable state an event committed an execution if and only if its inbox row is there, committed and naming it; the execution row then exists and belongs to that tenant and event. |
| `EventTheorems.CommitStoresPlan` | internal/services/events/service.go:191-268 | A commit adds, in one step, the inbox row of its tenant and event, its execution row, and precisely the identities of the decision's effects and of the subscribers; no old row changes. Every effect is stored for its own destination and every subscriber has its subscription row, all under that execution, if and only if these identities are pairwise distinct and unused. |
| `EventTheorems.OnlyCommitsWrite` | internal/services/events/service.go:57-113 | No step but a commit, a crash and a rollback included, changes the committed tables. |
| `EventTheorems.PlainEventsLoseNothing` | internal/domain/types.go:519-523 | If tenant, event id and type contain no vertical bar and no type is the reserved subscription name, every commit stores every effect of its decision for its own destination and a row for every subscriber. |
| `EventTheorems.SubscriptionNameCollides` | internal/services/events/service.go:242-257 | For every tenant and event of the reserved type and every name used both as rule id and as subscriber id, the rule effect and the subscriber row claim one identity. |
| `EventTheorems.BarredNamesCollide` | internal/domain/types.go:519-523 | Two different events of two tenants can claim one effect identity when names contain a vertical bar. |
| `EventTheorems.StaleHolderNeverCommits` | internal/adapters/postgres/shard.go:149-173 | Once a token is issued for a shard, no transaction with an older token commits there, and one with the same token is its owner's, for any clock reading of the assertion. |
| `EventTheorems.CommitsInTokenOrder` | internal/adapters/postgres/shard.go:23-36 | In every run the commits on a shard are in non-decreasing token order, and those under one token are one worker's. |
| `EventTheorems.AssertedLeaseIsFrozen` | internal/adapters/postgres/shard.go:149-173 | While a transaction is past its assertion, no step of anybody changes its lease row. |
| `EventTheorems.AckHasEvidence` | internal/application/worker_delivery.go:64-124 | In the state before a delivery is acknowledged its event already has a committed execution or a saved quarantine entry. |
| `EventTheorems.FailureLeadsTo` | internal/application/worker_delivery.go:82-124 | An invalid envelope, a missing revision and a failed evaluation lead to a saved entry with the event's tenant, id and failure class, or to a retry if the save fails; every other error leads to a retry. |
| `EventProtocol.PermanentErrors` | internal/domain/errors.go:195-257 | Exactly the invalid envelope, the missing revision and the failed evaluation are permanent errors, classed as validation, rule and evaluation. |
| `EventTheorems.AssertedWasHeld` | internal/adapters/postgres/shard.go:149-173 | A transaction gets past the assertion only as the shard's owner, with its current positive token and a lease that had not run out when it began. |
| `EventTheorems.SettledOnce` | internal/application/worker_delivery.go:52-191 | No delivery is settled twice. How the key queue sees to it is stated by `DeliveryFlow.SettledByOneTurn`. |
| `DeliveryFlow.SettledByOneTurn` | internal/application/worker_delivery.go:52-168 | In every run of a process with its key queue, a settled delivery was refused and then no worker ever took it, or exactly one worker turn took it. |
| `DeliveryFlow.SettledInSendOrder` | internal/application/worker_delivery.go:52-168 | In every reachable state, if a delivery of a partition key has left the queue, every delivery queued before it for that key has been settled. |
| `DeliveryFlow.OneInProcessingPerKey` | internal/runtime/keyqueue/queue.go:376-424 | In every reachable state a process has at most one delivery of a partition key in processing. |
| `DeliveryFlow.TakenIsQueued` | internal/runtime/keyqueue/queue.go:384-408 | The item a worker receives is that of a queued delivery under its event's partition key. |
| `DeliveryFlow.SettledIffTaken` | internal/runtime/keyqueue/queue.go:136-155 | Once every queue worker has left, an accepted delivery is settled if its item was taken, and still queued if not. |
| `DeliveryFlow.LeftBehind` | internal/runtime/keyqueue/queue.go:136-155 | A delivery left in a channel when the last worker has gone stays queued for ever: the process never settles it. |
| `DeliveryFlow.StepKeepsInv` | internal/application/worker_delivery.go:52-168 | Every step of queue, worker turns and event system keeps the invariant that ties a delivery's phase to its item's place among those sent and taken for its key. |
| `EventTheorems.RedeliveryGetsTheExecution` | internal/services/events/service.go:117-164 | A delivery answered with an execution got the one its event committed. |
| `EventProgress.UndisturbedDeliveryCommits` | internal/services/events/service.go:43-113 | A queued delivery of a new valid event on a held lease with an active rule set, while no other transaction has uncommitted writes, reaches by its own steps the commit of exactly the given decision and subscribers and is answered with that execution. |
| `EventSafety.StepKeepsInv` | internal/services/events/service.go:57-268 | Every step keeps the invariant that ties locks, uncommitted writes, committed tables, log and settlements together. |
| `EventSafety.RunInv` | internal/services/events/service.go:57-268 | The invariant holds in every state of every run. |
| `EventSafety.NoExecutionYet` | internal/services/events/service.go:191-208 | An event without an inbox row has no execution row under any revision. |
| `EventSafety.FillKeys` | internal/adapters/postgres/outbox.go:25-41 | Inserting a list of effects adds exactly its free identities, each with a row of the list. |
| `EventSafety.FillStable` | internal/adapters/postgres/outbox.go:25-41 | What a transaction has inserted does not depend on rows other transactions commit meanwhile. |
| `EventService.BuildOutboxRows` | internal/services/events/service.go:210-257 | The append loops build the decision's rows in order, each with its key, execution and destination, then one subscription row per subscriber. |
| `EventService.OthersInterfere` | internal/services/events/service.go:57-113 | Between two statements, any step of another worker extends the run, keeps the invariant, leaves the delivery alone and only adds commits and quarantine entries. |
| `EventService.EventService.DeduplicateEvent` | internal/services/events/service.go:117-164 | It ends with the inbox row inserted, with an execution, or with the duplicate or a storage error. |
| `EventService.EventService.LoadActiveRevision` | internal/services/events/service.go:167-188 | It ends with a revision, or with one of the errors for a missing activation, a missing revision and storage. |
| `EventService.EventService.InsertOutbox` | internal/adapters/postgres/outbox.go:25-41 | The loop inserts the whole plan row by row, or stops with a storage error. |
| `EventService.EventService.PersistExecutionAndOutbox` | internal/services/events/service.go:191-268 | It ends with everything written and the inbox row marked for at most 100 subscribers, with the fan-out error only for more than 100, or with a storage error. |
| `EventService.EventService.ProcessAsserted` | internal/services/events/service.go:80-113 | It returns an execution or one of six errors; the fan-out error only for more than 100 subscribers, the evaluation error only if a revision fails to evaluate. |
| `EventService.EventService.Process` | internal/services/events/service.go:43-113 | Interleaved with all others, an execution it returns is the committed one of the event; the validation error is returned if and only if id, type, tenant, partition key or time is missing, and otherwise a non-positive token is refused. |
| `EventService.EventService.SettleEventResult` | internal/application/worker_delivery.go:64-124 | An execution is acknowledged; an invalid envelope, a missing revision or a failed evaluation is acknowledged if the entry naming the event and the failure is saved, and retried if not; every other error is retried; an acknowledgement is justified. |
| `EventService.EventService.QuarantineInvalidDelivery` | internal/application/worker_delivery.go:172-191 | A malformed message is acknowledged if and only if its entry was saved. |
| `EventService.EventService.SubmitOwnedDelivery` | internal/application/worker_delivery.go:144-168 | The delivery is queued if and only if the key queue sent the item of this submission; otherwise it is refused. |
| `EventService.EventService.ProcessSingleDelivery` | internal/application/worker_delivery.go:127-168 | A readable delivery ends queued if and only if its item was put into the key queue, and refused otherwise, always so when not owned; an unreadable one is acknowledged if and only if its quarantine entry was saved, and retried otherwise. |
| `EventService.EventService.ProcessDelivery` | internal/application/worker_delivery.go:52-124 | For the item a worker turn took, interleaved with all others, the delivery ends acknowledged or retried by the same table, and acknowledged only with a committed execution or a saved quarantine entry. |
| `Leases.AcquireEvolves` | internal/adapters/postgres/shard.go:23-36 | Acquiring never lowers a token, never removes a row, changes an owner only with a new token, and touches one row. |
| `Leases.RenewEvolves` | internal/adapters/postgres/shard.go:39-52 | Renewing keeps every token and owner and touches one row. |
| `Leases.ReleaseEvolves` | internal/adapters/postgres/shard.go:101-112 | Releasing keeps every token and owner and touches one row. |
| `Leases.TokenNamesOneOwner` | internal/adapters/postgres/shard.go:23-112 | Over any sequence of acquire, renew and release statements rows stay, tokens never fall, and a token of a shard belongs to one worker for all time. |
| `Leases.AcquiredLeaseHolds` | internal/adapters/postgres/shard.go:23-36 | Up to and including the end of its term an acquired lease cannot be taken over, after it it can, and strictly before the end the owner passes the assertion. |
| `Leases.RenewedLeaseHolds` | internal/adapters/postgres/shard.go:39-52 | Up to and including the end of its new term a renewed lease cannot be taken over, after it it can, and strictly before the end the owner passes the assertion with the same token. |
| `Leases.ReleasedLeaseIsFree` | internal/adapters/postgres/shard.go:101-112 | A released lease can be taken over at once under the next token, and its former owner no longer passes the assertion. |
| `Leases.ShardLeases.Acquire` | internal/adapters/postgres/shard.go:23-36 | With any statements of other sessions between the upsert and the read-back, it returns the row as it stands at the read; if the row does not name the caller, the lease had not expired and nothing was written, or somebody took it over since under a greater token. |
| `Leases.ShardLeases.Renew` | internal/adapters/postgres/shard.go:39-52 | It succeeds exactly for the row with that owner and token that has not run out, and then moves its expiry to now plus the TTL; otherwise nothing changes. |
| `Leases.ShardLeases.RenewOwned` | internal/adapters/postgres/shard.go:57-98 | It renews exactly the rows single renewals would, moves each to now plus the TTL, returns exactly those, and changes no other. |
| `Leases.ShardLeases.Release` | internal/adapters/postgres/shard.go:101-112 | It expires the caller's row and keeps its token. |
| `Leases.ShardLeases.AssertHeld` | internal/adapters/postgres/shard.go:149-173 | It succeeds if and only if the token is positive and the live row has that owner and token. |
| `KeyQueueTheorems.Refines` | internal/runtime/keyqueue/queue.go:226-424 | Every step of the queue is a step of a map from key to FIFO sequence and busy flag, or invisible there. |
| `KeyQueueTheorems.SerializedPerKey` | internal/runtime/keyqueue/queue.go:384-424 | In every reachable state at most one worker processes a key. |
| `KeyQueueTheorems.ProcessedInSendOrder` | internal/runtime/keyqueue/queue.go:274-424 | Per key, the items taken are the first items sent and the rest is what waits in the map, across deletion and re-creation of the channel. |
| `KeyQueueTheorems.NothingStranded` | internal/runtime/keyqueue/queue.go:274-323 | A channel that is not in the map is empty and has no submitter. |
| `KeyQueueTheorems.WaitingIsSelectable` | internal/runtime/keyqueue/queue.go:384-408 | A waiting item can be selected by an idle worker unless some worker owns its key. |
| `KeyQueueTheorems.Bounded` | internal/runtime/keyqueue/queue.go:226-309 | Slots taken equal submitters past acquisition plus queued plus processing items, stay within the limit, and no channel exceeds its bound. |
| `KeyQueueTheorems.ReceiveAndReleaseNeverBlock` | internal/runtime/keyqueue/queue.go:376-408 | The dequeue and both slot releases are enabled whenever they are reached. |
| `KeyQueueTheorems.StopDrains` | internal/runtime/keyqueue/queue.go:136-155 | While stopping, every admitted submission has a step that brings it closer to its end. |
| `KeyQueueTheorems.NeverSetBack` | internal/runtime/keyqueue/queue.go:136-155 | While stopping, no step sets a submission back and the queue stays stopping. |
| `KeyQueueTheorems.NoSendAfterStop` | internal/runtime/keyqueue/queue.go:136-155 | After the workers are told to stop nothing is sent any more. |
| `KeyQueueShutdown.StopProcessesAllIff` | internal/runtime/keyqueue/queue.go:136-155 | When the workers are told to stop: in every continuation in which they all leave, everything accepted is processed, if and only if every item that waits then is alone in its channel with a worker about to receive it. |
| `KeyQueueShutdown.StopCanLeaveAnItem` | internal/runtime/keyqueue/queue.go:136-155 | For every limit, key and set of workers there is a run in which a call to Submit succeeds, Stop runs, every worker leaves, and the item is untaken. |
| `KeyQueueShutdown.DrainedIff` | internal/runtime/keyqueue/queue.go:136-155 | In every reachable state everything accepted was taken if and only if every channel in the map is empty. |
| `KeyQueueShutdown.UntakenStays` | internal/runtime/keyqueue/queue.go:325-350 | Once every worker has left nothing is taken any more; what is accepted and untaken is exactly the channel's content, and after Stop it stays the same. |
| `KeyQueueTheorems.OthersInterfere` | internal/runtime/keyqueue/queue.go:226-424 | A step of another goroutine leaves a submission and a worker alone. |
| `KeyQueueTheorems.HistoryOnlyGrows` | internal/runtime/keyqueue/queue.go:291-408 | What was sent and what was taken for a key keeps its place. |
| `KeyQueueOrigins.SentAtMostOnce` | internal/runtime/keyqueue/queue.go:226-309 | In every run one call to Submit sends at most once, over all keys and channels. |
| `KeyQueueOrigins.TakenAtMostOnce` | internal/runtime/keyqueue/queue.go:325-408 | In every run at most one worker turn takes what one call sent. |
| `KeyQueueOrigins.RefusedStaysUnsent` | internal/runtime/keyqueue/queue.go:226-323 | Once a call has returned, whether its item was sent never changes again. |
| `KeyQueueOrigins.RefusedIsNeverTaken` | internal/runtime/keyqueue/queue.go:226-408 | No worker ever takes the item of a call that returned without having sent it. |
| `KeyQueueOrigins.OthersSendNothing` | internal/runtime/keyqueue/queue.go:291-309 | Only a call's own send step sends for it. |
| `KeyQueueSafety.StepKeepsInv` | internal/runtime/keyqueue/queue.go:226-424 | Every step keeps the invariant on map, channels, submitter counts, ownership, slots and history. |
| `KeyQueueSafety.RunInv` | internal/runtime/keyqueue/queue.go:112-424 | The invariant holds in every state of every run. |
| `KeyQueueObject.KeyQueue.constructor` | internal/runtime/keyqueue/queue.go:65-109 | A new queue is empty and replaces non-positive limits by 100. |
| `KeyQueueObject.KeyQueue.Submit` | internal/runtime/keyqueue/queue.go:226-240 | Interleaved with all others, waiting for a slot and for room until cancelled, it succeeds if and only if its own item was sent, at a place in the key's history that was empty before, and leaves no submission behind. |
| `KeyQueueObject.KeyQueue.SelectQueue` | internal/runtime/keyqueue/queue.go:384-408 | It marks a queue with items and no worker, or there is none. |
| `KeyQueueObject.KeyQueue.ReceiveItem` | internal/runtime/keyqueue/queue.go:384-408 | The received item is the next one in the key's send order. |
| `KeyQueueObject.KeyQueue.TakeNext` | internal/runtime/keyqueue/queue.go:384-408 | Interleaved with all others, it takes an item during the call, at the same place of the key's taken and sent histories, or leaves the worker idle. |
| `KeyQueueObject.KeyQueue.ProcessNext` | internal/runtime/keyqueue/queue.go:325-382 | One worker turn takes an item during the call, at the same place of the key's taken and sent histories, and ends idle. |
| `KeyQueueObject.OthersLeaveAlone` | internal/runtime/keyqueue/queue.go:226-424 | A step of another goroutine extends the run, leaves a submission alone, sends nothing for it and only appends to the histories. |
| `OutboxSafety.OnlyLatestClaimSettles` | internal/adapters/postgres/outbox.go:105-167 | In every run a claimed row is settled only by the batch that claimed it last, for the effect at its head. |
| `OutboxSafety.StaleSettlementIsRefused` | internal/adapters/postgres/outbox.go:105-167 | A settlement under an older token matches no row, so it changes none and is answered as a lost claim. |
| `OutboxSafety.FinalRowsStay` | internal/adapters/postgres/outbox.go:105-167 | A delivered or quarantined row never changes again. |
| `OutboxSafety.SettlementIsHonest` | internal/services/effects/service.go:49-128 | Delivered implies a successful send; attempts equal the number of retry settlements and stay below the limit. |
| `OutboxAttempts.QuarantinedAfterFiveTries` | internal/services/effects/service.go:84-128 | In every run an effect has at most four retries, and a quarantined one has exactly four: its fifth attempt failed. |
| `OutboxAttempts.RetryIsDelayed` | internal/services/effects/service.go:115-143 | After its first, second, third and fourth failure an effect is due exactly 1, 2, 4 and 8 seconds later. |
| `OutboxAttempts.InsertedIsDue` | internal/services/events/service.go:210-257 | A new effect is due from the reading of its insertion on, with no attempt behind it. |
| `OutboxSafety.QuarantinedHasEntry` | internal/services/effects/service.go:84-113 | A quarantined effect has its saved entry unless an operator deleted it or the quarantine reply was lost. |
| `OutboxSafety.QuarantineEntryKeptIff` | internal/services/effects/service.go:103-113 | After a quarantine statement took effect and the publisher reacted without further errors, the effect is quarantined and its entry is kept if and only if the reply arrived. |
| `OutboxWitness.LostReplyDeletesEntry` | internal/services/effects/service.go:84-113 | For every effect and entry identity there is a run that ends with the effect quarantined and the entry gone, without an operator. |
| `OutboxSafety.ClaimAppends` | internal/adapters/mongo/outbox.go:59-83 | A batch never claims an effect twice. |
| `OutboxSafety.ClaimIsLiveOrFree` | internal/adapters/postgres/outbox.go:56-76 | At every clock reading a claim is either live for its holder or free for the taking. |
| `OutboxSafety.StepKeepsInv` | internal/services/effects/service.go:49-128 | Every step keeps the invariant on claims, snapshots, attempts, sends and quarantine entries. |
| `OutboxSafety.RunInv` | internal/services/effects/service.go:49-128 | The invariant holds in every state of every run. |
| `OutboxPublisher.OthersInterfere` | internal/services/effects/service.go:49-128 | Steps of other publishers extend the run, keep the invariant and final rows, never lower a retry count and leave the batch alone. |
| `OutboxPublisher.Publisher.ClaimPending` | internal/adapters/mongo/outbox.go:59-83 | Interleaved with others, at most `n` effects are claimed at one reading and the batch holds their snapshots; each was due, and no due effect was available or created earlier, in some state during the call; if fewer than `n` were claimed, none was due in some state during the call. |
| `OutboxPublisher.Publisher.MarkDelivered` | internal/adapters/postgres/outbox.go:105-132 | It reports an error if and only if the reply was lost or the row was not this token's; the row is delivered if it was this token's and the statement took effect, otherwise no row changes. |
| `OutboxPublisher.Publisher.ScheduleRetry` | internal/adapters/postgres/outbox.go:135-150 | It reports an error if and only if the reply was lost or the row was not this token's; the row is pending again with one more attempt and its delay if it was this token's and the statement took effect, otherwise no row changes. |
| `OutboxPublisher.Publisher.Quarantine` | internal/adapters/postgres/outbox.go:153-167 | It reports an error if and only if the reply was lost or the row was not this token's; without an error the row is quarantined, with one the entry is deleted next. |
| `OutboxPublisher.Publisher.GiveUp` | internal/services/effects/service.go:84-114 | Without a reported failure the effect that is out of attempts is quarantined; in any case the batch goes on. |
| `OutboxPublisher.Publisher.PublishOne` | internal/services/effects/service.go:67-125 | One turn of the loop settles the effect or reports a failure, and moves on. |
| `OutboxPublisher.Publisher.PublishBatch` | internal/services/effects/service.go:49-128 | It takes every claimed effect one turn, leaves none behind, and each one it reports no failure for was delivered, quarantined or scheduled for another try. |
| `OutboxClaims.SelectionIsUnique` | internal/adapters/postgres/outbox.go:56-76 | The first claimable rows in order, passing over locked ones, are one list only. |
| `OutboxClaims.SelectedIsOldest` | internal/adapters/postgres/outbox.go:56-76 | Picked rows are due and unlocked, in order of availability and then creation; no due unlocked row that was passed over comes before a picked one, and none is passed over while fewer than the limit are picked. |
| `OutboxClaims.ClaimStatement` | internal/adapters/postgres/outbox.go:56-76 | Filter, order, limit and skipping of locked rows pick the oldest due rows, and exactly these are claimed under the token until now plus the TTL. |
| `OutboxClaims.ClaimLoop` | internal/adapters/mongo/outbox.go:59-120 | A loop of single claims at one reading picks the same rows, oldest first, and claims exactly these. |
| `OutboxClaims.FindFirst` | internal/adapters/mongo/outbox.go:85-120 | The find returns a due row that no due row precedes in availability and creation, or there is none due. |
| `OutboxClaims.ClaimBothWays` | internal/adapters/mongo/outbox.go:59-120 | With no row locked, both forms of claiming give equal results and equal rows. |
| `RebalanceTheorems.TwoRoundsCoverTheFleet` | internal/runtime/shard/lease.go:196-376 | From any ownership with synchronized snapshots and with all statements interleaved: once every manager has finished a first round, and every manager has then finished another round begun since, every shard is owned by exactly one manager and none is above the ceiling target. Rounds need not line up. The premise is that so far no statement of a round failed and no lease expired. |
| `RebalanceTheorems.OneRoundSufficesIff` | internal/runtime/shard/lease.go:324-376 | Every run in which each manager finishes one round, without a failed statement or an expired lease, ends with every shard owned by exactly one manager if and only if no manager starts above the target. |
| `RebalanceTheorems.OneRoundIsPossible` | internal/runtime/shard/lease.go:324-376 | From every start there is such a run. |
| `RebalanceTheorems.ExcessLeavesAGap` | internal/runtime/shard/lease.go:334-376 | From every start with a manager above the target some such run ends with a shard that nobody holds. |
| `RebalanceTheorems.OneRoundCanLeaveAGap` | internal/runtime/shard/lease.go:324-376 | Two shards, both owned by one of two managers: a run of one round can leave one of them to nobody. |
| `RebalanceTheorems.FullFleetCovers` | internal/runtime/shard/lease.go:310-319 | By pigeonhole, managers that all hold the target leave no shard over. |
| `Rebalance.Target` | internal/runtime/shard/lease.go:310-319 | The target is the least positive count with which all replicas together cover all shards. |
| `Rebalance.StepKeepsInv` | internal/runtime/shard/lease.go:324-376 | Every release, acquire, failed statement, renewal, lost lease and tick keeps the counts right; while no statement failed and no lease expired, the snapshots agree with the lease rows and nobody is above the target after its first round. |
| `LeaseManagers.ApplyBatchRenewals` | internal/runtime/shard/lease.go:257-276 | An entry whose token is still the one sent is replaced by the renewed lease or dropped; every other entry stays. |
| `LeaseManagers.RenewOwnedBatch` | internal/runtime/shard/lease.go:229-276 | After a batch renewal the snapshot holds exactly the worker's rows that were still live, as they are stored, with their tokens and the new expiry. |
| `LeaseManagers.OthersInterfere` | internal/runtime/shard/lease.go:324-376 | Steps of other managers, renewals and the clock extend the run, keep the invariant and leave a manager in its round alone. |
| `LeaseManagers.LeaseManager.ReleaseExcess` | internal/runtime/shard/lease.go:334-353 | The highest shards are given up, passing over those whose release failed during the call, until the target is reached or only failed ones are left. |
| `LeaseManagers.LeaseManager.AcquireMissing` | internal/runtime/shard/lease.go:356-376 | Nothing is given up, the target is not exceeded, and if it is not reached, every shard not owned was held by another manager, or its acquire failed, in some state during the call. |
| `LeaseManagers.LeaseManager.RebalanceIfNeeded` | internal/runtime/shard/lease.go:324-376 | One round, with statements that fail with or without having taken effect. Above the target the highest shards go, down to the target or to those whose release failed. Otherwise what is owned stays, and what is still missing was refused during the call. |
| `Predicates.ShortCircuitIsSound` | internal/rules/evaluator.go:106-177 | A boolean answer is the formula's truth value under every way of filling in skipped or failing leaves. |
| `Predicates.EvaluationIsComplete` | internal/rules/evaluator.go:106-160 | If every leaf has a truth value and no conjunct is missing, evaluation gives an answer; missing disjuncts do not matter. |
| `Predicates.AcceptedFailsOnlyInALeaf` | internal/rules/compiler.go:265-324 | An accepted predicate never evaluates to an invalid predicate or operator. |
| `Predicates.AcceptedIff` | internal/rules/compiler.go:265-324 | A predicate is accepted if and only if it is well formed and its nesting fits the depth limit. |
| `Predicates.OppositesDisagreeIff` | internal/rules/evaluator.go:162-213 | An operator and its opposite give opposite results if and only if the path is not missing; on a missing value both are false. |
| `Predicates.OperatorMeans` | internal/rules/evaluator.go:162-213 | For a value that is there, each of the ten operators gives what equality, membership, comparison or presence says; only order operators fail, and only on values that cannot be compared. |
| `Predicates.KnownOperators` | internal/rules/evaluator.go:180-197 | The compiler accepts an operator if and only if evaluation knows it. |
| `Predicates.CountBoundsEvaluation` | internal/rules/compiler.go:426-449 | Evaluating a well-formed predicate looks at no more leaves than were counted for its budget. |
| `Predicates.CountsLeaves` | internal/rules/compiler.go:426-449 | What is counted for the budget is the number of leaves. |
| `Predicates.StorageRoundTripIff` | internal/domain/types.go:160-167 | Encoding and decoding returns the predicate if and only if it has no empty list. |
| `Predicates.AcceptedHasNoEmptyLists` | internal/rules/compiler.go:286-324 | An accepted predicate has no empty list anywhere. |
| `Predicates.AcceptedSurvivesStorage` | internal/adapters/postgres/rules.go:48-66 | An accepted predicate is loaded as it was stored and evaluates the same. |
| `Predicates.EmptyListIsLost` | internal/domain/types.go:160-167 | An empty `any` is false before storage and an error after it. |
| `RuleSets.Compile` | internal/rules/compiler.go:54-90 | It accepts exactly the acceptable rule sets; an accepted one has a name, a positive revision, a known mode, rules within every limit, distinct ids and priorities and, in first-match mode, an otherwise branch only on the lowest rule; the compiled list is its rules in strictly descending priority. |
| `RuleSets.CountWork` | internal/rules/compiler.go:173-179 | The loop counts all leaves and all actions. |
| `RuleSets.CheckRules` | internal/rules/compiler.go:182-263 | It accepts if and only if every rule is well formed and ids and priorities are pairwise distinct. |
| `RuleSets.ValidateRule` | internal/rules/compiler.go:215-263 | The checks in source order accept exactly the well-formed rules within the limits. |
| `RuleSets.ValidateAction` | internal/rules/compiler.go:326-424 | The checks in source order accept exactly the well-formed actions. |
| `RuleSets.AcceptedAction` | internal/rules/compiler.go:326-424 | An accepted action is of exactly one kind, with its names set, no wildcard in an event type, a key for its key policy, and its payload within the limit. |
| `RuleSets.SortRules` | internal/rules/compiler.go:193-195 | The result is a permutation in strictly descending priority. |
| `RuleSets.SourceOrderIsIrrelevant` | internal/rules/compiler.go:54-90 | Permuting the rules changes neither acceptance nor the compiled list nor, hence, any evaluation. |
| `RuleSets.DecisionTextFollowsSource` | internal/domain/types.go:526-535 | For two sources whose rules are permutations of each other the evaluations are equal, and the texts of their decision hashes are equal if and only if the source texts are; so permuting the rules changes the hash. |
| `RuleSets.BuildDecisionText` | internal/domain/types.go:526-535 | The appending loops build the text of the decision hash. |
| `RuleSets.DescendingIsUnique` | internal/rules/compiler.go:193-195 | A strictly descending list is determined by its elements. |
| `RuleSets.WorkPermutes` | internal/rules/compiler.go:173-179 | The budget counts do not depend on the order. |
| `RuleSets.EvaluateRules` | internal/rules/evaluator.go:45-65 | The loop with its early exits computes the evaluation that `FirstMatchDecides`, `FirstMatchSucceedsIff` and `AllMatchesDecide` describe. |
| `RuleSets.AppendEffects` | internal/rules/evaluator.go:68-104 | One branch contributes its actions' effects in order, or fails. |
| `RuleSets.FirstMatchDecides` | internal/rules/evaluator.go:45-104 | In first-match mode the effects are, one by one, those of the `then` actions of the matching rule with the highest priority, or of the `otherwise` actions of the lowest rule if none matches; that rule's id, or none, is listed. |
| `RuleSets.FirstMatchSucceedsIff` | internal/rules/evaluator.go:45-104 | In first-match mode evaluation succeeds if and only if every rule up to the first match has a truth value and can build the branch it chooses. |
| `RuleSets.AllMatchesDecide` | internal/rules/evaluator.go:45-104 | In the other modes evaluation succeeds if and only if every rule has a truth value and can build the branch it chooses; the effects are, rule after rule and action by action, those of `then` where the rule matches and of `otherwise` where not, and exactly the matching ids are listed in order. |
| `RuleSets.DecisionSourcesAreDistinct` | internal/rules/evaluator.go:68-104 | No two effects of a decision share rule and action index. |
| `RuleSets.CompiledRulesFailOnlyInLeaves` | internal/rules/evaluator.go:106-213 | Rules of an accepted set fail only in a leaf. |
| `Identity.ExecutionRoundTrip` | internal/domain/types.go:512-516 | The text of an execution identity parses back to its fields. |
| `Identity.ExecutionTextLayout` | internal/domain/types.go:512-516 | The text is the tag, the three length-prefixed fields and the revision, separated by bars. |
| `Identity.ExecutionTextInjective` | internal/domain/types.go:512-516 | Equal texts come from equal tenant, event, rule set and revision. |
| `Identity.EffectTextInjectiveWithinDecision` | internal/domain/types.go:519-523 | Within one decision equal texts come from equal rule and action index. |
| `Identity.EffectTextInjective` | internal/domain/types.go:519-523 | Equal texts come from equal fields when tenant, event and rule set contain no vertical bar. |
| `Identity.EffectTextLayout` | internal/domain/types.go:519-523 | The text is tenant, event, rule set, revision, rule and index, separated by bars. |
| `Identity.EffectTextCollision` | internal/domain/types.go:519-523 | Without that condition different fields can give equal texts. |
| `ShardHash.ShardHash` | internal/domain/types.go:37-44 | The loop computes the fold of the FNV-1a step. |
| `ShardHash.KnownHashes` | internal/domain/types.go:37-44 | The hashes of the empty key and of the key with the one byte 97 are the published FNV-1a values. |
| `ShardHash.OneByteApartNeverCollides` | internal/domain/types.go:37-44 | Keys of one length that differ in exactly one byte have different hashes. |
| `ShardHash.SuffixKeepsCollisions` | sdk/go/flowrule/shard.go:10-17 | Appending a common suffix preserves both equality and inequality of hashes. |
| `ShardHash.StepIsInjective` | rust-worker/src/engine.rs:48-52 | One step is injective in the state and in the byte, by an inverse of the prime modulo 2^32. |
| `ShardHash.VirtualShard` | internal/domain/types.go:31-34 | The shard is the hash of tenant, colon and partition key modulo the shard count, and in range. |
| `Backoff.DeliveryCeiling` | internal/application/worker_delivery.go:21-43 | For every base and 64-bit attempt the ceiling is base times 2^(attempt-1) capped at five minutes, without overflow. |
| `Backoff.CeilingInNanoseconds` | internal/application/worker_delivery.go:15-43 | In nanoseconds: the base is five seconds unless a positive one is set, doubled per attempt and capped at five minutes. |
| `Backoff.DeliveryRetryDelay` | internal/application/worker_delivery.go:44-50 | The delay lies between half the ceiling and the ceiling. |
| `Backoff.BackoffsAgree` | internal/services/effects/service.go:130-143 | The publisher's and the scheduler's delays agree on all integers with min(2^(max(a,1)-1), 60) seconds, in nanoseconds. |
| `FetchRotation.Consumer.Select` | internal/adapters/nats/jetstream.go:335-362 | The selection is a run of consecutive consumers from the cursor, wrapping around, without repeats, and the cursor moves past it. |
| `FetchRotation.EveryConsumerIsPolled` | internal/adapters/nats/jetstream.go:335-362 | Any ceil(n/k) consecutive selections of k out of n unchanged consumers poll every one. |
| `FetchRotation.SplitBudget` | internal/adapters/nats/jetstream.go:388-407 | Every budget is at least one, they differ by at most one, and they sum to the maximum. |
| `FlowLayout.LayoutRuleFlow` | web/console/src/flow-layout.ts:7-31 | Every rule set appears exactly once, reachable ones on the level of their shortest distance, the others one past the greatest, in order of level and name. |
| `FlowLayout.Search` | web/console/src/flow-layout.ts:9-21 | On any graph, a name gets a level if and only if it is reachable, and the level is its shortest distance. |
| `FlowLayout.Visit` | web/console/src/flow-layout.ts:13-20 | The inner loops add exactly the known unseen names the branches emit, each once, on the next level. |
| `FlowLayout.Deepest` | web/console/src/flow-layout.ts:22 | The result is the greatest level. |
| `FlowLayout.BuildNodes` | web/console/src/flow-layout.ts:23-29 | There is one node per rule set, with its branches, level and reachability. |

## Left out

- HTTP handlers, authentication, configuration, observability, Redis adapters and SDK transports: plumbing around libraries.
- SHA-256, JSON parsing, SQL and NATS themselves: identities are their pre-images, JSON is a datatype, statements are atomic steps.
- Real time: timeouts and tickers are nondeterministic steps; liveness is stated only as enabled steps, not as fairness.
- Batch services and repositories: the worker refuses to start with a batch mode.
- End-to-end order across redelivery or lease handoff: not promised by the system.
- Leaf comparison, path walking and template interpolation: parameters of evaluation; the Go and Rust comparisons differ.
- MongoDB lease assertion and transactions: it takes no row lock, so fencing is modelled for PostgreSQL only.
- Hot-key reporting, queue statistics, contract registries, code generation, the scheduler's claim loop and quarantine replay: none of the theorems here depends on them.
- Legacy tenant resolution in the MongoDB claim and the check of claim arguments: a positive TTL is required instead.
- Names with equal collation: the layout and the claims assume a strict tie-break between different names.
- Consumer matching and its sort: `Select` receives the matching consumers as a list without repeats.
- Which error is reported: compilation and evaluation keep only success and failure, since several rules can be wrong at once.
- Acquire and its read-back in the fleet and event models: one step; `Leases.ShardLeases.Acquire` separates them.
- Joining the class objects: `EventService` and `KeyQueue` are linked by the transition system `DeliveryFlow`, not by an object that holds both.
- Ack, nak and retry calls that fail: a settlement is the call, and a redelivery by the broker is a new delivery.
- Crash of the process in `DeliveryFlow`: it ends the run; `EventProtocol` has crashes.
- EventService.EventService.Process: that a call ends with an execution when nothing disturbs it is stated for the transition system, by `UndisturbedDeliveryCommits`, not for the method.
- OutboxClaims.ClaimStatement: RETURNING promises no order; the statement is taken to return its rows in the candidates' order.
- Coverage after a failed statement or an expired lease: the snapshots can then disagree with the lease rows until renewals and expiry have settled it; the theorems start wherever they agree again.
