# LinkGo protocols, modelled and proved in Dafny

LinkGo is a distributed chat back end. Its services keep their state in MySQL rows, Redis keys and Kafka records, and
several replicas of each service work on that state at once. This project models the protocols that keep it consistent
and proves what they promise, over every interleaving of their steps.

`dafny verify dfyconfig.toml` checks everything.

## How it is modelled

- One SQL transaction under its row locks, one Lua script and one single Redis command are one step each. Between any two
  steps of a process, any steps of other processes may run; a process may stop anywhere; leases and most keys may vanish;
  a command may be lost, or take effect although its answer is lost (module `Faults`). `Run(state, steps)` ranges over all
  of these.
- Code that updates state in place is a class or a method with loops whose contract ties it to the step functions:
  `MoneyStore`, `DeliveryOutboxStore`, `LogicWorker`, `Transfer`, `SequenceStore`, `PushMessage`, `LearningTaskStore`,
  `PendingAckStore`, `PushWorkerPools`, `TokenBucketLimiters`, and the loops of `WireCodec`, `HistorySync` and `Replay`.
  Processes that are interrupted take the steps of the others as an arbitrary parameter.
- Time is a number passed in with each call. Random ids arrive as parameters; an id that is already taken fails on its key.

Assumptions, all of them about the deployment:

- the schema is migrated and both outbox flags are on;
- the unique keys exist: (sender, client message id), the ledger's (user, business, business id), (user, request id) of
  recharges, (packet, user) of claims, (task, user) of submissions, (actor, request id) of task events;
- the seven-day Redis expiry does not fire, except where a step says so (`Acceptance.Step.Expire`,
  `DeliveryPipeline.Step.KeyLost`, `Sequence.Step.LoseKey`);
- 64-bit counters do not overflow; SHA-256 digests of different requests differ;
- MySQL compares strings under the collation of the schema, which ignores case (sql/init.sql:2 and the tables from line 37
  on), Redis and Go compare them exactly. Modules `Acceptance` to `UntilAcknowledged` take any collation (`State.fold`),
  because there the same id is a key in both. In the other models a key lives in MySQL only, or is issued by the server in
  one spelling, and equal there means equal as its store compares;
- user ids contain no ':', as the UUIDs of internal/community/service.go:47 do not, so that the Redis keys of a client id
  (internal/logic/handler_idempotency.go:126-128) and of a recipient's lease (cmd/transfer/main.go:358-360) stand for pairs;
- lease owners are fresh random tokens (`LeaseExclusion.FreshOwners`; only module `LeaseExclusion` needs it);
- no recipient is the empty string: `loadGroupRecipientsFromDB` skips empty ids (internal/logic/relations.go:114) and
  `normalizeFrame` refuses a frame without a target (internal/logic/handler.go:236). `DeliveryOutbox.Enqueue` takes only
  such lists, and `RecipientNames.RecordsAreNamed` shows that the transfer's test `failedRecipient == ""` relies on it.

## The components

| component | files | what is proved |
|---|---|---|
| Reliable delivery | `DeliveryOutbox`, `DeliveryOutboxStore`, `RecipientLease`, `DeliveryPipeline`, `NoLostDelivery`, `NoLostDeliveryRuns`, `PipelineHistory`, `RetryTopics`, `LeaseExclusion`, `RecipientNames`, `LogicWorker`, `Transfer` | fencing by generation; no row is stuck; one lease holder per recipient; every retry before a dead letter; no obligation is lost between outbox, Kafka, dead letters and tracking |
| Acceptance | `Acceptance`, `PushMessage`, `ClientIds` | a success reply is truthful, exactly when it is about the client's own message, and which reply every undisturbed request gets |
| Session numbers | `Sequence`, `SequenceStore`, `SessionNumbers` | numbers are fresh and without gaps while the counter lives, and exactly when losing it or a client's own number is harmless; only supplied numbers can clash |
| From acceptance to acknowledgement | `EndToEnd`, `UntilAcknowledged` | a success reply promises that every recipient is owed the message, can be replayed it, or has acknowledged it |
| Acknowledgement | `PendingAck`, `PendingAckStore` | a tracked message stays replayable until its own ACK; a due one can always be retried; cursors only rise; retries are bounded |
| Replay and history | `Replay`, `HistorySync` | each stored message is written exactly once; the client's pages miss nothing |
| Money | `Money`, `Shares`, `MoneyInvariant`, `MoneyOutcomes`, `MoneyStore`, `MapSums` | conservation, ledger exactness, exact shares, one refund, unreachable errors; who is paid what, and when |
| Rate limiter | `RateLimit`, `TokenBucketLimiter` | the decisions are exactly those the rate bound allows; eviction is invisible, and the bound holds, exactly under one condition |
| Wire codec | `Utf8`, `Wire`, `WireCodec` | which inputs decode, concatenation, and exactly which messages survive a round trip |
| Push workers | `WorkerPool`, `PoolDrains`, `PushWorkerPool` | exactly-once completion, order per user, safe channels, draining close that can always finish |
| Learning tasks | `LearningTask`, `LearningTaskLaws`, `LearningTaskEvents`, `LearningTaskStore` | the event log tells the tables and why each row is as it is, exactly which requests are accepted, requests are idempotent, rounds only move forward |

Eight properties hold only under a condition. For each, one member shows how it fails and one says exactly when it holds:

- A message that starts with U+FEFF loses that character, because `TextDecoder` strips it (`WireCodec.MarkIsLost`).
  Decoding undoes encoding if and only if the message is `Restorable` (`WireCodec.RoundTrip`).
- A client id that differs from a stored one only for Redis, in its case for instance, is answered with success although
  the stored message is another one (`ClientIds.OtherSpelling`). Over any set of client ids, every success reply is about
  the client's own message if and only if MySQL tells the ids apart (`ClientIds.OwnMessageIff`).
- An idle bucket that is evicted before it would have refilled lets through more than the rate allows
  (`RateLimit.OverAdmission`). Eviction is invisible, and the bound holds, if and only if rate times the idle limit reaches
  the capacity (`RateLimit.InvisibleIffRefilled`, `RateLimit.BoundedIffRefilled`).
- Losing the counter key between its check and its increment hands out stored numbers again
  (`Sequence.LossDuringAllocationRepeats`). A loss is harmless for all that can follow if and only if the state is
  `LossTolerable` (`Sequence.LossIsSafeIff`).
- A positive number supplied by the client can overtake the counter (`Sequence.ClientNumberOvertakes`), although the
  handler keeps it. It is harmless for all that can follow if and only if it is `ClientTolerable`: the counter has reached
  it or, without a counter, no replica is about to bring one back below it (`Sequence.ClientNumberIsSafeIff`). Harmless
  losses and numbers may occur any number of times (`Sequence.TolerableRunKeeps`).
- Even then a save can be refused for its number: two clients may supply the same one (`SessionNumbers.SuppliedNumbersClash`).
  With one spelling of each conversation id, harmless runs never refuse a save for its number if and only if clients supply
  none (`SessionNumbers.NumbersClashIff`); whatever they supply, only supplied numbers clash
  (`SessionNumbers.OnlySuppliedNumbersClash`).
- The pending set is not always covered by the payload index: a retry that scores an id after its ACK leaves it behind
  (`PendingAck.OrphanExample`). One step makes an id such an orphan if and only if it is a retry's new score of an id that
  is gone (`PendingAck.OrphansComeFromRescoring`), and then its ACK script has run (`PendingAck.OrphanWasAcknowledged`).
  The other inclusion always holds.
- Replay with a negative cursor, or without a session, reports success although neither the timeline nor the stored
  messages are consulted; the gateway passes the cursor -1 whenever the parameter is missing
  (`Replay.MissingCursorExample`). Otherwise success means that every stored row in range was written exactly once; in
  this case, unless a write was refused, a row is written if and only if its id is pending with a readable payload
  (`Replay.SyncOfflineMessages`).

## Model

| member | source | states |
|---|---|---|
| NoLostDeliveryRuns.NothingIsLost | internal/logic/delivery_outbox.go:118-203 | in every reachable state, each recipient of a stored event's snapshot is tracked, dead-lettered, carried by an uncommitted Kafka record, or its outbox row is not done |
| NoLostDeliveryRuns.CommittedRecordsAreSettled | cmd/transfer/main.go:125-277 | an offset is committed only past records whose every recipient is tracked, dead-lettered or carried by a live record of a later attempt |
| NoLostDeliveryRuns.DeliveredMeansTracked | cmd/transfer/recipient_lease.go:24-53 | a lease key reads "delivered" only for a pair that was tracked, through lost keys and changing owners |
| NoLostDelivery.SettledCommit | cmd/transfer/main.go:259-277 | committing the next record leaves every settled pair settled: no record vouches for itself |
| NoLostDeliveryRuns.StepKeeps | internal/logic/handler.go:204-227 | every step of workers, consumers and key loss keeps the delivery invariant |
| EndToEnd.AcceptedIsDelivered | internal/logic/handler_store.go:38-116 | in every reachable state of acceptance and delivery together, a key with a success reply has its row, the row's message has an outbox row, and each recipient of its snapshot is tracked, dead-lettered, carried by an uncommitted record, or the outbox row is not done |
| UntilAcknowledged.AcceptedUntilAcknowledged | internal/delivery/redis.go:20-28 | in every reachable state of acceptance, delivery and the recipients' keys together, a key with a success reply has its stored row and outbox row, and each recipient is still owed the message, is dead-lettered, can be replayed it with its payload, or has acknowledged it after it was tracked |
| LogicWorker.Worker.Deliver | internal/logic/handler.go:204-227 | one group job is published or the recipients are tracked in turn, command by command under faults and interference; success exactly when every command was answered, and then the job is in its log or every recipient is tracked |
| LogicWorker.Worker.ProcessEvent | internal/logic/delivery_outbox.go:118-203 | claim, hand over and settle, command by command; success means the row is done and every recipient settled, and a row once done stays; undisturbed and with a current snapshot, every pending or processing row that is available is claimed, and ends exactly as its delivery ended |
| LeaseExclusion.OneHolder | cmd/transfer/recipient_lease.go:24-53 | in every run whose claims draw fresh owner tokens, at most one consumer working on a pair holds the pair's key |
| LeaseExclusion.OnlyTheHolder | cmd/transfer/recipient_lease.go:24-53 | a pair's key changes only by a claim of a free key, by its loss, or by the completion or release of the consumer that holds it |
| RecipientNames.RecordsAreNamed | cmd/transfer/main.go:189-218 | no Kafka record of any run names an empty recipient, so the empty string can stand for "none failed" |
| RetryTopics.AttemptsClimb | cmd/transfer/main.go:228-257 | in every reachable state main-topic records are attempt 0, retry-topic records attempts 1 to maxAttempts, dead letters attempt maxAttempts + 1, and each but the first follows the same job's earlier attempt: nothing is dead-lettered before all its retries |
| Transfer.Consumer.DeliverGroupRecipient | cmd/transfer/main.go:290-319 | under faults and interference, a recipient is passed only when its pair has been tracked; an error is reported exactly when a command was lost or unanswered; undisturbed, a free pair ends delivered and another token's lease is respected |
| Transfer.Consumer.ProcessFetchedMessage | cmd/transfer/main.go:168-257 | a record counts as handled only after all recipients, or after a failure when the record with one attempt more is in the retry partition, past the last attempt in the dead letters; the failed recipient's name decides, as in the source |
| Transfer.Consumer.CommitFetchedMessage | cmd/transfer/main.go:259-277 | the commit is repeated until it is answered or the tries end, and the position moves only then; undisturbed, the offset moves by one |
| Transfer.Consumer.ConsumeOne | cmd/transfer/main.go:125-166 | the consumer moves past a record only with everyone the record names settled; undisturbed, with no lease in the way, it moves and everyone is tracked |
| DeliveryOutbox.GenerationFencing | internal/logic/delivery_outbox.go:118-203 | a finish or reschedule can succeed only for the row's most recent claim by a worker whose snapshot was current, and for no second worker |
| DeliveryOutbox.StaleClaimNeverFinishes | internal/logic/delivery_outbox.go:118-203 | a worker that claimed with a stale snapshot can neither finish nor reschedule |
| DeliveryOutbox.LeaseExcludes | internal/logic/delivery_outbox.go:118-134 | while the latest claim's lease runs, the row is not due for anyone |
| DeliveryOutbox.AttemptLimits | internal/logic/delivery_outbox.go:134-163 | pending rows have fewer than 10 attempts, dead rows at least 10 |
| DeliveryOutbox.RowsAdvance | internal/logic/delivery_outbox.go:118-203 | rows keep their message and recipients, attempts only grow, done and dead are final, over every run |
| DeliveryOutbox.UnfinishedIsWorkedOn | internal/logic/delivery_outbox.go:31-203 | in every reachable state any worker can claim a pending or processing row from its available_at on, with a lease of thirty seconds, and then finish it, give it back, or after the tenth failure bury it: a crash leaves no row stuck |
| DeliveryOutbox.OthersAreLeftAlone | internal/logic/delivery_outbox.go:118-134 | a done or dead row, or one not yet available, is neither loaded nor claimed |
| DeliveryOutbox.RetriesBackOff | internal/logic/delivery_outbox.go:205-213 | delays double from one second up to sixteen |
| DeliveryOutboxStore.Outbox.ProcessEvent | internal/logic/delivery_outbox.go:118-203 | claim and fenced finish, each possibly failing, with any steps of others in between, are a run of the protocol; a database error is reported exactly when a statement failed, a lost lease exactly when the fence fails; undisturbed, which rows are claimed and how each ends, written out |
| Acceptance.AcceptedIsStored | internal/logic/handler.go:55-194 | under any collation, a key with a success reply has a stored row with its delivery event under its folded form, now and after any further steps |
| Acceptance.CommittedRecordIsTheRow | internal/logic/handler_idempotency.go:66-85 | a committed Redis record names exactly the stored row's message id, session and number, and the row was inserted under the record's own spelling |
| Acceptance.RowsAreDistinct | internal/logic/handler_store.go:38-116 | one row per sender and client id as MySQL compares them; no two rows share a message id or a number in a session, in the same sense |
| Acceptance.StepKeeps | internal/logic/handler_idempotency.go:22-124 | every command of every interleaved request, crash and expiry keeps the acceptance invariant |
| Acceptance.OneAttemptGoesOn | internal/logic/handler_idempotency.go:22-64 | of two requests that find the client id free, whatever their SET NX answers, only the first to write goes on |
| Acceptance.ReservationIsTakenUp | internal/logic/handler_idempotency.go:22-103 | an attempt that stops after recording its reservation leaves its number, id and conversation to the next attempt |
| ClientIds.OwnMessageIff | internal/logic/handler_idempotency.go:126-128 | over any set of client ids, every success reply of every run is about the message sent under exactly that id if and only if MySQL tells the ids apart |
| ClientIds.OtherSpelling | internal/logic/handler.go:85-110 | for any two ids that MySQL takes for equal, a run in which the second is answered with success while the row is the first's |
| PushMessage.NormalizeFrame | internal/logic/handler.go:229-247 | exactly when a frame is accepted, and exactly which fields are filled in, the target type from the target's first letters |
| PushMessage.LogicHandler.ReserveClientMessage | internal/logic/handler_idempotency.go:22-64 | the request goes on with its own or an earlier reservation's frame, or has been answered; undisturbed, exactly which, and what the key then holds |
| PushMessage.LogicHandler.FindOrStore | internal/logic/handler_store.go:38-116 | afterwards the request is about to commit the stored row's record, under the row's spelling of the id, or to release its reservation; undisturbed, exactly which, and what was stored |
| PushMessage.LogicHandler.ReleaseClientMessage | internal/logic/handler_idempotency.go:105-124 | an error is answered as a failure; undisturbed, exactly a pending value under the frame's key is deleted and nothing else changes |
| PushMessage.LogicHandler.Push | internal/logic/handler.go:55-194 | with faults and other requests in between, accepted means stored with its event; undisturbed, the exact reply, row, event and Redis record for every starting state |
| PushMessage.SettledOutcome | internal/logic/handler_idempotency.go:22-64 | undisturbed, a client id in flight, committed or reserved for another conversation is answered from Redis alone, with success exactly if committed |
| PushMessage.FreshOutcome | internal/logic/handler.go:55-194 | undisturbed, every other request: a stored message is answered if the sender may send; a new one is stored with its event, under the reserved number and id, exactly if it may be sent and no stored row has its message id or its number in its conversation; and what the key holds afterwards |
| Sequence.NumbersAreFresh | internal/logic/handler_sequence.go:10-51 | in every interleaving without harmful losses or client numbers, numbers strictly increase and the next exceeds all handed out or stored |
| Sequence.NumbersAreConsecutive | internal/logic/handler_sequence.go:10-51 | while the key is kept and clients supply nothing, the replicas hand out the stored maximum plus one, plus two and so on, in every interleaving |
| Sequence.TolerableRunKeeps | internal/logic/handler_sequence.go:10-51 | replica steps, tolerable losses and tolerable client numbers keep the counter's invariant, over every run |
| Sequence.LossIsSafeIff | internal/logic/handler_sequence.go:27-51 | after any harmless run, losing the key is harmless for all that can follow if and only if the state is tolerable |
| Sequence.LossDuringAllocationRepeats | internal/logic/handler_sequence.go:16-51 | a loss between check and increment hands out a stored number again |
| Sequence.ClientNumberIsSafeIff | internal/logic/handler.go:130-137 | after any harmless run, a client's number is harmless for all that can follow if and only if the counter has reached it or, without a counter, nobody brings one back below it |
| Sequence.ClientNumberOvertakes | internal/logic/handler.go:130-137 | for every number of at least 2: after a client supplied it, the counter hands out a smaller one |
| SessionNumbers.OnlySuppliedNumbersClash | internal/logic/handler.go:130-154 | in every joint run of requests and counters with harmless losses and client numbers, a save that nothing is stored for is refused for its number only if a client supplied that number in that conversation or the row spells the conversation differently |
| SessionNumbers.NewNumbersAreHighest | internal/logic/handler_sequence.go:16-51 | in the same runs, the next number of a counter is higher than every number stored in its conversation |
| SessionNumbers.NumbersClashIff | internal/logic/handler.go:130-137 | for any set of numbers that clients may supply, no harmless run refuses a save for its number if and only if the set has no usable number |
| SessionNumbers.SuppliedNumbersClash | internal/logic/handler.go:130-137 | for any two client ids and any number, a harmless run in which both supply it and the second save meets the first's row |
| SequenceStore.SessionCounter.EnsureSequenceInitialized | internal/logic/handler_sequence.go:27-51 | with any steps of other replicas in between, the replica ends ready to increment |
| SequenceStore.SessionCounter.NextSequence | internal/logic/handler_sequence.go:16-25 | the number returned exceeds everything handed out or stored when the call began; with no other replica running it is the counter, or without one the stored maximum, plus one |
| PendingAck.TrackedStaysReplayable | internal/delivery/redis.go:20-28 | once tracked, an id stays pending under its first payload through every interleaving without its own ACK script |
| PendingAck.IndexChanges | internal/server/ack.go:27-36 | only an id's own ACK script removes it, and it removes it from all four structures at once |
| PendingAck.StillReadable | internal/server/sync.go:43-69 | a message indexed when the pending list is read is listed, and a later read of its payload gives the same one unless its own ACK script ran in between |
| PendingAck.OrphansComeFromRescoring | internal/server/retry.go:82-144 | a step leaves an id pending without payload if and only if it is a retry's new score of an id that is gone; tracking heals it |
| PendingAck.OrphanWasAcknowledged | internal/server/retry.go:82-144 | in every run from the start, an id pending without payload has had its ACK script run |
| PendingAck.OrphanExample | internal/server/retry.go:113-136 | a concrete interleaving of retry and ACK that leaves such an id behind |
| PendingAck.CursorsOnlyRise | internal/server/ack.go:18-25 | no run lowers a Redis or MySQL ACK cursor |
| PendingAck.RetriesAreBounded | internal/server/retry.go:82-110 | across all retry loops at most maxRetries pushes are granted between two acknowledgements; cursors stand at tracked messages; pushes carry tracked payloads |
| PendingAck.DueIsRetried | internal/server/retry.go:66-144 | in every reachable state an indexed message whose score is reached is found by an idle loop, pushed with its tracked payload and scored for now, or, once its attempts are used up, marked offline and scored a minute later |
| PendingAckStore.Gateway.RetryOnePending | internal/server/retry.go:82-144 | which branch is taken and, without interference, the exact keys afterwards in each |
| PendingAckStore.RetryOutcome | internal/server/retry.go:82-144 | undisturbed, one more attempt is counted; up to the limit an indexed message is scored for now, or marked offline if the write fails; beyond it, marked offline and scored a minute later |
| PendingAckStore.Gateway.AckMessage | internal/server/ack.go:42-98 | without interference, the exact keys and cursors after an ACK, known or unknown; with it, the handler always comes to rest |
| PendingAckStore.AckOutcome | internal/server/ack.go:42-98 | undisturbed, an unknown id changes nothing; a known one leaves all four structures, and both cursors end at its number or wherever further they stood |
| PendingAckStore.TrackOutcome | internal/delivery/redis.go:20-28 | a new id is pending for now under its payload with no retry counted; what is already there stays |
| PendingAckStore.Gateway.ReplayPending | internal/server/sync.go:43-69 | with other processes running between the list and each payload read, success writes every message indexed at the start that was not acknowledged before its read, with exactly its payload |
| Replay.SyncOfflineMessages | internal/server/sync.go:29-95 | no id is written twice, and only what was asked for: pending payloads, then timeline entries, then rows above the cursor, each in order; failure only after an unanswered list or query or a refused write; on success with a session and a cursor of zero or more, every row of the first snapshot above the cursor, up to the cut-off, is written exactly once; otherwise a row is written exactly when its id is pending with a readable payload |
| Replay.MissingCursorExample | cmd/gateway/internal/handler/websockethandler.go:211-220 | with the cursor of a missing parameter, success is reported and a stored row is not written |
| Replay.SyncMySQL | internal/server/sync.go:143-207 | at most 1199 MySQL writes, of stored rows above the cursor in ascending order; the cut-off is the end unless at least 1000 were written; it fails only after a failed query or a refused write, and terminates although the table may grow for ever |
| Replay.WriteBatch | internal/server/sync.go:155-190 | one batch writes, in order, exactly the rows not yet replayed and moves the cursor to its last row |
| Replay.SyncTimeline | internal/server/sync.go:97-141 | the readable ones of the first 200 timeline entries above the cursor are sent in order unless already replayed; it fails only after an unanswered query or a refused write |
| Replay.FirstBatchIs | internal/server/sync.go:105-114 | an id is among those entries if and only if one of its entries has a score above the cursor that fewer than 200 such entries precede |
| Replay.SyncPendingMessages | internal/server/sync.go:43-69 | each payload read by a command of its own: on success the frames are exactly those of the readable pending ids, in order; otherwise a proper prefix up to the first refused write |
| HistorySync.CollectMissingPages | public/history-sync.js:6-36 | terminates; collects every message above the baseline present at the first fetch exactly once, and only stored rows; without a baseline exactly the newest page; all pages but the last are full; with appended rows `added` counts exactly those, and the error is raised if and only if the page budget does not reach the baseline |
| HistorySync.GetHistory | internal/logic/handler_history.go:25-96 | the page is the newest rows below the cursor in ascending order, 50 by default and at most 100, with exact hasMore and next cursor |
| HistorySync.ReverseInPlace | internal/logic/handler_history.go:88-90 | the swap loop reverses the array |
| MoneyInvariant.MoneyIsConserved | internal/logic/redpacket.go:85-350 | in every reachable state wallets plus active packets equal the recharges paid |
| MoneyInvariant.LedgerExplainsBalances | internal/logic/wallet.go:230-282 | every balance is non-negative and equals credits minus debits, and every ledger row stores its running prefix |
| MoneyInvariant.SharesAreExact | internal/logic/redpacket.go:178-303 | after k of n claims the remainder is the closed form, claims and remainder add up, and exactly n claims finish the packet with nothing left |
| MoneyInvariant.OneRefundPerExpiredPacket | internal/logic/redpacket.go:458-511 | an expired packet has exactly one refund row, of exactly what was left; any other packet has none |
| MoneyInvariant.ImpossibleErrors | internal/logic/redpacket.go:305-350 | the invalid-amount, duplicate-ledger and missing-refund branches are never taken |
| MoneyInvariant.RechargeOnlyOnce | internal/logic/wallet.go:113-206 | a paid request id stays paid once through any later run |
| MoneyInvariant.ClaimOnlyOnce | internal/logic/redpacket.go:178-303 | a user's share of a packet stays the only one through any later run |
| MoneyInvariant.RunKeeps | internal/logic/redpacket.go:85-350 | every run of recharges, creations, claims and refunds keeps books, packets and ledger consistent |
| MoneyOutcomes.RechargesAccepted | internal/logic/wallet.go:113-135 | exactly which recharges are valid: named user and request id of up to 128 characters, four channel names, amounts of 1 to 1,000,000 |
| MoneyOutcomes.RechargeOutcome | internal/logic/wallet.go:113-206 | a new request id credits the user and adds exactly its ledger row; a used one changes nothing and meets the unique key, after which the earlier order is looked up |
| MoneyOutcomes.CreationsAccepted | internal/logic/redpacket.go:85-120 | exactly which packets are valid: 1 to 1000 shares of at least 1, a user or group conversation, an expiry to come, by default a day ahead |
| MoneyOutcomes.CreateOutcome | internal/logic/redpacket.go:120-176 | the sender pays exactly the total and the packet is active with all of it, or the balance falls short, or the id is taken, and nothing changes |
| MoneyOutcomes.ClaimOutcome | internal/logic/redpacket.go:178-303 | in every valid state a claim pays the next share if and only if the packet is active, its expiry is still to come and the user has no share; a late claim closes the packet and gives the remainder back to the sender |
| MoneyOutcomes.RefundExpiredOutcome | internal/logic/redpacket.go:305-350 | the sender gets the remainder of an active packet from its expiry on, finds the refund of an expired one, and is refused otherwise |
| MoneyOutcomes.PaidInTime | internal/logic/redpacket.go:178-350 | over every run, a packet's money is sent and claimed only before its expiry, and refunded only from then on |
| Shares.NextShare | internal/logic/redpacket.go:517-532 | the next share is the base or the base plus one, at least 1, fits, and the last-claim case agrees with the formula |
| Shares.AfterShare | internal/logic/redpacket.go:257-268 | a claim finishes the packet exactly when it takes the last share, with nothing left |
| MoneyStore.Database.UpdateWalletAndLedger | internal/logic/wallet.go:250-282 | a movement updates the balance and appends one row, or reports which of its three errors applies |
| MoneyStore.WalletService.MockRecharge | internal/logic/wallet.go:113-206 | pays, returns the earlier order, or refuses a reused id, also when another caller wins the race |
| MoneyStore.RedPacketService.Create | internal/logic/redpacket.go:85-176 | validates, debits and creates in one transaction, or leaves everything as it was |
| MoneyStore.RedPacketService.Claim | internal/logic/redpacket.go:178-303 | a repeated claim returns the earlier share unchanged; otherwise exactly one claim transaction after any others, which succeeds if and only if the packet is active, not yet expired and the user has no share of it |
| MoneyStore.RedPacketService.RefundExpired | internal/logic/redpacket.go:305-350 | refunds the remainder, finds the earlier refund, or refuses, in one transaction |
| RateLimit.InvisibleIffRefilled | internal/middleware/ratelimit.go:45-105 | the sweeping limiter decides like one that never evicts, on all traces, if and only if an idle bucket refills before eviction |
| RateLimit.BoundedIffRefilled | internal/middleware/ratelimit.go:45-105 | every key stays within capacity + rate * T in every window of every trace, under the same condition and only then |
| RateLimit.OverAdmission | internal/middleware/ratelimit.go:95-105 | otherwise, from any instant on, a concrete trace exceeds the bound |
| RateLimit.ReferenceIsBounded | internal/middleware/ratelimit.go:45-81 | without eviction the bound always holds |
| RateLimit.ReferenceIsExact | internal/middleware/ratelimit.go:45-81 | without eviction a call is admitted if and only if, with it, no window that ends with it exceeds capacity + rate * T: the bound alone fixes every decision |
| RateLimit.DecisionsAreExact | internal/middleware/ratelimit.go:45-105 | the sweeping limiter decides in exactly that way too, if idle buckets refill before eviction |
| RateLimit.KeysApart | internal/middleware/ratelimit.go:49-51 | no two keys share a bucket but the missing key and "anonymous" |
| RateLimit.GatewayLimiters | cmd/gateway/internal/svc/servicecontext.go:111-112 | both configured limiters satisfy the condition, so each is invisible in its evictions, bounded and exact |
| TokenBucketLimiters.TokenBucketLimiter.Allow | internal/middleware/ratelimit.go:45-81 | the object's answer and new shards are those of the model, sweep included |
| TokenBucketLimiters.TokenBucketLimiter.SweepLocked | internal/middleware/ratelimit.go:95-105 | the loop deletes exactly the buckets idle for more than ten minutes, at most once a minute |
| WireCodec.DecodesRecords | web/src/wire.ts:56-86 | decoding succeeds exactly on sequences of well-formed records that use up all bytes, and yields their last values |
| WireCodec.Concatenation | web/src/wire.ts:56-86 | after a decodable prefix, the whole decodes exactly as the rest does, overriding it; errors included |
| Wire.LastOneWins | web/src/wire.ts:71-83 | a field has a value if and only if some record sets it, and then the last one's |
| WireCodec.RoundTrip | web/src/wire.ts:44-86 | decoding undoes encoding if and only if the message has no status, no empty string, no leading U+FEFF and only numbers of 0 to 70 bits |
| WireCodec.Arrives | web/src/wire.ts:44-86 | what arrives for any well-typed message, including those that do not survive |
| WireCodec.MarkIsLost | web/src/wire.ts:80 | a body that starts with U+FEFF arrives without it |
| WireCodec.KnownBytes | web/src/wire.ts:44-55 | the bytes of one message with a number and a text, as the protobuf encoding has them |
| Wire.EncodeVarint | web/src/wire.ts:34-43 | the loop produces the base-128 digits of the number, negative ones as zero |
| Wire.VarintLength | web/src/wire.ts:34-43 | a varint has at most k bytes if and only if the number is below 128 to the k |
| Wire.NearestDouble | web/src/wire.ts:66 | `Number(v)` keeps 53 significant bits: the nearest multiple of the gap, from the middle the even one |
| WireCodec.Encode | web/src/wire.ts:44-55 | the loop concatenates the records of the present, non-empty fields in order |
| WireCodec.Read | web/src/wire.ts:60-69 | reads exactly the varint at the cursor as a double, or fails if none ends within ten bytes |
| WireCodec.Decode | web/src/wire.ts:56-86 | the cursor loop computes what the record grammar says, with its three errors |
| Utf8.RoundTrip | web/src/wire.ts:50-80 | for every string, decoding its UTF-8 bytes returns it less a leading byte order mark |
| Utf8.MalformedInput | web/src/wire.ts:80 | each stray byte, and each character cut short, becomes one U+FFFD; what comes before and after is decoded as if it stood alone |
| Utf8.KnownBytes | web/src/wire.ts:50 | the UTF-8 bytes of one character of each length |
| WorkerPool.UserOrderKept | internal/server/pool.go:155-189 | in every interleaving a user's completed tasks are a prefix of that user's accepted ones |
| WorkerPool.CloseDrains | internal/server/pool.go:134-153 | after a successful close every accepted task completed exactly once and none is ever accepted again |
| PoolDrains.WorkersCanFinish | internal/server/pool.go:134-189 | in every reachable state after a close has let go of the lock, steps of the workers alone complete every accepted task, and then each waiting Close succeeds |
| WorkerPool.ChannelsAreSafe | internal/server/pool.go:90-153 | queues stay within capacity and hold only tasks of users whose hash falls on their shard; nothing is sent on or closes a closed queue |
| WorkerPool.RunKeeps | internal/server/pool.go:90-189 | every step of submitters, closers and workers keeps lock, channel and flow invariants |
| PushWorkerPools.PushWorkerPool.SubmitWithResult | internal/server/pool.go:90-132 | with others locking, closing and working in between: what each of the four answers means, and an accepted task is in the pool; undisturbed, exactly which answer and queue |
| PushWorkerPools.PushWorkerPool.Close | internal/server/pool.go:134-153 | with others in between: every queue ends closed, and success means the workers are done and every accepted task has completed |
| PushWorkerPools.PushWorkerPool.RunShard | internal/server/pool.go:155-189 | with sends and closes in between, the worker completes its shard's tasks in the order of acceptance and stops only on a closed, empty queue |
| LearningTaskLaws.LogTellsTables | internal/learningtask/store.go:98-175 | in every reachable state each row equals its newest event, its version counts its events, and no actor's request id has two |
| LearningTaskEvents.EveryEventIsTold | internal/learningtask/store.go:98-128 | over every run, each event carries the request, caller and time that turned its row's event before into it, field by field |
| LearningTaskEvents.SubmissionIsAsRequested | internal/learningtask/submission.go:14-183 | over every run, a submission waits, is approved or is returned if and only if its newest event is an attempt, an approval or a return; the judge, note, texts and times are that event's |
| LearningTaskEvents.TaskIsAsRequested | internal/learningtask/store.go:177-324 | over every run, a task is a draft, published or closed if and only if its newest event created or edited, published or closed it, with that event's texts and times |
| LearningTaskEvents.AcceptedIff | internal/learningtask/store.go:130-175 | with a fresh request id, a request is accepted if and only if its id is well formed, its caller has the role and its row the state, version and dates it needs, all written out |
| LearningTaskEvents.TrimIs | internal/learningtask/submission.go:14-16 | trimming takes the white space off both ends and nothing else |
| LearningTaskLaws.OneEventOneChange | internal/learningtask/store.go:130-175 | a request changes nothing, or adds one event and rewrites exactly the row it names by one version |
| LearningTaskLaws.RepeatChangesNothing | internal/learningtask/store.go:82-96 | an accepted request repeated at any later time changes nothing and gets the stored result, or "missing" once the role is gone |
| LearningTaskLaws.OtherRequestConflicts | internal/learningtask/store.go:82-96 | a used request id never lets another request through |
| LearningTaskLaws.NoLostUpdate | internal/learningtask/store.go:237-324 | of two requests expecting the same version of a row only one is ever accepted |
| LearningTaskLaws.RoundsAddUp | internal/learningtask/submission.go:30-183 | a waiting submission has version 2 * attempt - 1, a judged one 2 * attempt, and a closed task has none waiting |
| LearningTaskLaws.FinalStays | internal/learningtask/store.go:296-324 | approved submissions, closed tasks and all submissions of a closed task never change again |
| LearningTaskLaws.AttemptIsThere | internal/learningtask/submission.go:48-81 | the (task, user) key always leads to that member's submission, so the missing-row branch is never taken |
| LearningTaskStore.Service.Admit | internal/learningtask/store.go:130-158 | the checks of the request, the row, the role and the stored answer, one after the other: exactly the first refusal, the stored result, or none |
| LearningTaskStore.Service.ValidateSubmission | internal/learningtask/model.go:125-158 | the loop accepts exactly the texts, links and lists of at most ten distinct attachment ids that the rules allow |
| LearningTaskStore.Service.CountPending | internal/learningtask/store.go:307-314 | the count is the number of submissions to that learning task which wait for review |
| LearningTaskStore.Service.CheckIdempotent | internal/learningtask/store.go:82-96 | finds the stored answer of this request id, or the conflict with another request |
| LearningTaskStore.Service.Create | internal/learningtask/store.go:177-235 | the statements of the method carry out exactly the creation transaction |
| LearningTaskStore.Service.UpdateDraft | internal/learningtask/store.go:237-268 | likewise for editing a draft, with every refusal in the order of the checks |
| LearningTaskStore.Service.Publish | internal/learningtask/store.go:270-294 | likewise for publishing |
| LearningTaskStore.Service.Close | internal/learningtask/store.go:296-324 | likewise for closing, refused while a submission waits |
| LearningTaskStore.Service.Submit | internal/learningtask/submission.go:14-102 | likewise for first and repeated attempts |
| LearningTaskStore.Service.Review | internal/learningtask/submission.go:121-183 | likewise for a verdict |

## Left out

- Database and network errors inside a transaction: they roll back and change nothing, so they add no reachable state.
- Fallbacks for unmigrated schemas (`saveMessageWithoutOutbox`, `saveMessageLegacy`, `getHistoryLegacy` and the like).
- Frames that are not normal messages (greetings, ACK frames, heartbeats): they do not take the acceptance path.
- Trimming and lower-casing of ids and channels in the chat and wallet services; learning-task texts are trimmed in the model.
- ProcessDeliveryOutbox's batch loop, its limit and the `last_error` and `processed_at` columns: no decision depends on them.
- Malformed Kafka values, which the consumer dead-letters or skips before the protocol starts.
- FNV hashes: any function of the key stands for them, so nothing proved depends on the distribution.
- Which gateway a message is pushed to, route keys and Pub/Sub: delivery counts as done once the tracking script has run.
- Message payload encodings (JSON, base64, protobuf on the server side): payloads are values that are read back as written.
- Writing the session timeline (`RememberSessionMessage`): its errors are ignored by the source, and replay takes any timeline.
- `mergeLatestPage`: a keyed union and a sort for display, with no state kept between calls.
- The group-membership check before a history page, and the read side of wallets, packets and learning tasks.
- TTL refresh of session and conversation keys, conversation summaries and read cursors: max-merges like the ACK cursor.
- Lone surrogates in browser strings, strings of 2^53 bytes and more, and fractional numbers in the codec.
- Floating-point rounding in the limiter, its nil receiver, and calls whose clock runs backwards; rate and time are real numbers.
- Handler panics in a push worker; starting goroutines; the request contexts beyond being cancelled or not.
- Row-decoding errors in replay; they end it like a failed write.
- Byte lengths: request ids and links are measured in characters.
- Payloads that `WriteBinary` drops without an error because the membership was revoked (internal/server/manager.go:64-72): written means that it returned nil.
- The scan of `retryGatewayPending` over users and routes; a retry starts from any id that is pending and due.
- Liveness under real time: leases, retries and retry timers are bounded in count, not in seconds.
- RateLimit.InvisibleIffRefilled: states the equivalence for whole-number capacities, because the constructor takes an integer.
- RateLimit.BoundedIffRefilled: the same whole-number capacity of at least 1 and a non-negative rate.
- SessionNumbers.OnlySuppliedNumbersClash: each spelling of a conversation id counts its own stored numbers, so what two spellings of one conversation do to each other is not promised.
- SessionNumbers.NewNumbersAreHighest: likewise.
- UntilAcknowledged.AcceptedUntilAcknowledged: takes one payload for each message id; that outbox and Kafka carry the same frame is not part of this model.
- HistorySync.CollectMissingPages: rows inserted below an already fetched page after the first fetch are not promised, because the loop never looks there again.
- PendingAckStore.Gateway.AckMessage: exact keys only without interference; with it, the runs of module PendingAck say what is kept.
- PendingAckStore.Gateway.RetryOnePending: likewise.
- PushWorkerPools.PushWorkerPool.SubmitWithResult: waits for the lock a given number of tries, and says that it is still waiting when they end; the source waits without limit.
- PushWorkerPools.PushWorkerPool.Close: likewise, and the context's deadline is a number of looks at the workers.
- PushWorkerPools.PushWorkerPool.RunShard: likewise a number of looks at the queue.
- DeliveryOutboxStore.Outbox.ProcessEvent: takes the outcome of the delivery as an input; LogicWorker.Worker.ProcessEvent carries the delivery out step by step.
- LogicWorker.Worker.ProcessEvent: which partition a published job goes to is an input; deadlines of the statements are faults.
- PushMessage.LogicHandler.Push: exact results only without interference; with it, the runs of module Acceptance say what is kept.
- Transfer.Consumer.CommitFetchedMessage: the endless retry loop takes a number of tries, which stands for shutdown.
- Transfer.Consumer.ConsumeOne: one round of the endless loop, with the same number of tries.
