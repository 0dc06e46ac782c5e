# A verified model of the Pulsar client's send and receive protocol

This project models, in Dafny 4.11, the protocol logic of an asynchronous Pulsar client written in Rust, and proves
that it keeps its promises over every input, every interleaving of its tasks and every behaviour of the broker, the
network and the clock. `dafny verify dfyconfig.toml` checks everything.

Where the source changes state step by step, the model does too: classes whose methods reassign their fields, loops
with invariants, in-place patching. Each such method is proved against a function of its inputs or of its old state, and
the theorems are proved about those functions. Tasks that run concurrently are state machines over their atomic steps
(a region under a lock, one channel operation, one branch of a `select`), so a theorem about a run is a theorem about
every schedule.

| module | what it models |
|---|---|
| `Bytes`, `Framing` | the frame codec: encoding with a checksum patched in place, decoding from a stream cut anywhere |
| `BatchFormat` | the entries inside a batch payload |
| `Base64`, `Messages` | partition keys, their three wire fields, and the forms a message takes on its way out |
| `BatchStorage`, `SendLoop` | the two loops of a batching producer, as imperative code |
| `Pipeline`, `PipelineTheorems`, `AnswerTheorems` | the same two loops, the callers, the clock and the broker as interleaving tasks; what the callers are told |
| `Refinement` | the interleaving tasks refine the imperative loops run one after the other |
| `EndToEnd` | from the callers through the tasks to the bytes, and back to the callers' messages |
| `SendPath`, `RetryOp` | one send over a connection that may fail; creating a producer with retries |
| `Rendezvous` | the receiver that matches responses to requests arriving in either order |
| `ConnectionManager`, `ConnectionSharing`, `SharingTheorems` | the connection cache and the tasks that share connection attempts |
| `TopicLookup`, `RetryBudget` | the two lookup loops, and the retry budget they share with creating a producer |
| `PartitionNames`, `JavaHash`, `StableSort`, `PartitionedProducer` | partition names, key hashing, growth, and the choice of a partition |

The environment appears as parameters that the theorems quantify over: protobuf encoders (with the one requirement that
decoding inverts encoding), the CRC-32C function (section 12.1 of RFC 3720; any function of bytes), the murmur3
function, URL parsing, random numbers, elapsed times, and what each request meets. The frame layout follows the section
"Framing" of the Pulsar binary protocol specification, base64 follows section 4 of RFC 4648, UTF-16 follows sections 2.1
and 2.2 of RFC 2781. Size limits are stated where they matter: frames below 2^32 bytes, batched payloads and batch counts
below 2^31; for the frame and for the batch entry the limit is proved to be exact.

## Where the code and its own documentation differ

The model follows the code.

* `src/producer.rs:651-652` calls `partition_index` strict about the suffix, but the integer parse accepts a leading plus
  sign and rejects indices that overflow; `PartitionNames.WhereTheTestsDiffer` says exactly where it parts from
  `is_topic_partition_name`.
* `src/producer.rs:777-778` says that `build` takes the unpartitioned path for one partition; by `src/producer.rs:1355-1359`
  a topic with one partition gets a partitioned producer, and the model allows it.
* `src/producer.rs:713-714` assumes that re-checks only ever report partitions. If one reports that the topic is not
  partitioned, the bare topic joins the producers; `PartitionedProducer.ProducersFollowPartitions` shows that this is the
  only way in which the producers stop being the partitions in order. It joins behind them, unless its own name carries a
  partition index with a plus sign; `PartitionedProducer.GrowthKeepsPrefix` says when that moves a partition.
* `src/producer.rs:169` and `src/producer.rs:1730-1745` offer a replication override and a delivery time per message. A
  batching producer drops both, besides the schema version that `src/producer.rs:999-1003` mentions: a batch entry has no
  field for them and the envelope is sent without them. `Messages.WhatBatchingLoses` says exactly what is lost.
* `src/connection_manager.rs:485-489` promises that waiters are notified rather than stuck. That fails when the keep-alive
  task cannot be spawned (`src/connection_manager.rs:554-557`) or the connecting future is dropped;
  `SharingTheorems.FailedSpawnStrandsWaiter` is such a run, and `SharingTheorems.StuckIffNobodyHelps` gives the exact
  condition under which a waiter can never be told.
* A registration or a response whose key is already taken replaces what was there, silently. `Rendezvous.BalancedIffNothingDropped`
  gives the exact condition under which this never happens.

## Model

| member | source | states |
|---|---|---|
| EndToEnd.CallersMessagesArriveInOrder | src/producer.rs:1470-1650 | For every run of the batching producer whose batches go out, and every way of cutting the byte stream, frame decoding and unpacking as the consumer does it give what the callers handed in, one by one and in the order of acceptance, except that each message has its batch's schema version, no replication override and no delivery time; it is unchanged exactly if it had neither of the latter and the same schema version. Once a closed producer has refused nothing, that is every accepted message |
| EndToEnd.WireIsConsumed | src/consumer/batched_message_iterator.rs:15-81 | Any sequence of batches is consumed as the messages their callers handed in, each as its batch carried it |
| EndToEnd.SentBatchesReadBack | src/producer.rs:1556-1594 | In every reachable state, for any subset of the finished batches that reached a stream, the stream decodes without failure or leftover to exactly the messages of those batches in order |
| EndToEnd.ReceiptIdIsConsumerId | src/consumer/batched_message_iterator.rs:15-50 | The message id in a sender's receipt is the id under which a consumer that unpacks the same entry sees that sender's message |
| EndToEnd.WireUnpacks | src/connection.rs:1793-1842 | Any sequence of batches within the format's limits, sent as commands with payload, is unpacked by the announced counts to the batches' messages in order |
| EndToEnd.CommandMatchesMetadata | src/connection.rs:1793-1842 | Command and metadata of a wire message carry the same sequence id and message count, and the producer's id and name |
| PipelineTheorems.AnswersFollowAcceptance | src/producer.rs:1470-1650 | In every reachable state the accepted messages, in order, are those answered after a reply, those in emitted batches, those refused and those in no batch yet: none lost, doubled or overtaken |
| PipelineTheorems.EmittedPlusStoredIsAccepted | src/producer.rs:1488-1528 | While collecting, finished batches, the batch in hand, queued batches, storage and channel concatenate to exactly the accepted items, flush requests included |
| PipelineTheorems.NoMessageIsAnsweredTwice | src/producer.rs:1614-1634 | Over every run no caller is answered twice, by either loop or by both |
| PipelineTheorems.CloseAnswersEveryMessageOnce | src/producer.rs:1065-1087 | When the close notification has been sent, every accepted message has been answered exactly once |
| AnswerTheorems.EachMessageEndsAsItsBatchDid | src/producer.rs:1612-1634 | When the close notification has been sent, each accepted message is in a finished batch or was refused, and its caller has exactly one answer: the receipt if the broker acknowledged that batch, the error if its send failed, Closed if the message was refused |
| AnswerTheorems.AnswersAreTrue | src/producer.rs:1612-1634 | In every reachable state a caller has been told of a delivery only if its message is in a batch, finished or in hand, that was acknowledged, and of a failure only if the send of that batch failed with that error |
| AnswerTheorems.FailedBatchIsReported | src/producer.rs:1628-1634 | In every reachable state each caller of a finished batch whose send failed has been told that error |
| AnswerTheorems.PlainReceiptReachesCallers | src/producer.rs:1614-1623 | In every reachable state a receipt without message id has reached each caller of its finished batch unchanged |
| AnswerTheorems.ReleasesAreTrue | src/producer.rs:1582-1634 | In every reachable state each flush release belongs to a finished batch ending with that flush, and is signalled unless the send of that batch failed |
| PipelineTheorems.ClosedIsSettled | src/producer.rs:1637-1647 | At the close notification the accepted items are exactly the finished batches followed by the refused items |
| PipelineTheorems.CloseReleasesEveryFlush | src/producer.rs:977-985 | When the close notification has been sent, every accepted flush request has had its waiter released |
| PipelineTheorems.FlushIsBarrier | src/producer.rs:977-985 | When a flush waiter is released, by the signal or by the drop after a failed batch, every message accepted before the flush has been answered |
| PipelineTheorems.ReceiptNamesWirePosition | src/producer.rs:1570-1623 | For a successful batch of n messages the receipt of message i carries index i and size n, the envelope announces n, and parsing the payload with n gives that same message at position i |
| PipelineTheorems.BatchesAreTight | src/producer.rs:1438-1451 | Storage never keeps a flush request and is never complete between iterations; every emitted batch minus its last item is below every positive limit and free of flush requests, so the sending loop's counter is its message count and its unexpected-flush branch is never taken |
| PipelineTheorems.TimerTracksOldestItem | src/producer.rs:1489-1526 | The timer is armed exactly when a timeout is configured and something is stored, for the arrival of the oldest stored item plus the timeout |
| PipelineTheorems.StepsUseUpWork | src/producer.rs:1470-1650 | Every step of either loop strictly decreases a natural measure, so the loops cannot run on without new input |
| PipelineTheorems.ClosedProducerIsNeverStuck | src/producer.rs:1470-1650 | Bounded channels never deadlock a closed producer: until the close notification some step is possible |
| PipelineTheorems.CloseCompletes | src/producer.rs:1065-1087 | From every reachable state of a closed producer, whatever the broker replies, a bounded number of steps leads to the close notification without changing what was accepted |
| PipelineTheorems.FlushIsNeverStuck | src/producer.rs:977-985 | While an accepted flush is not released, some step of the two loops is possible without new input and without the timer |
| PipelineTheorems.FlushCompletes | src/producer.rs:977-985 | From every reachable state with an accepted flush, of an open or closed producer, whatever the broker replies, a bounded number of such steps releases its waiter |
| Refinement.ScheduleIsIrrelevant | src/producer.rs:1470-1650 | Whatever the interleaving, the concurrent tasks refine the two loops run one after the other: finished batches are the sequential collector's first ones in order, each ending as the sequential sender would have it, and at the end of a run the batches, answers, releases and refusals are exactly theirs |
| Refinement.RunRefines | src/producer.rs:1470-1650 | Every reachable state corresponds to the state of the sequential loops on the same inputs, expiries and replies |
| Pipeline.StepKeepsInvariant | src/producer.rs:1470-1650 | Every step of callers, clock, collecting loop, sending loop or broker keeps conservation, the answers given, the shape of batches and the phase conditions |
| Pipeline.RunKeepsInvariant | src/producer.rs:1470-1650 | That invariant holds after every interleaving of any length |
| BatchStorage.Storage.constructor | src/producer.rs:1415-1421 | New storage is empty and its size is the stored payload total |
| BatchStorage.Storage.PushBack | src/producer.rs:1425-1430 | Appends the item and keeps the size equal to the stored payload total |
| BatchStorage.Storage.GetMessages | src/producer.rs:1433-1436 | Returns everything stored in order and leaves storage empty with size zero |
| BatchStorage.Storage.ReadyToFlush | src/producer.rs:1439-1451 | True exactly when a count or byte limit is reached by what is stored or the last item is a flush request |
| BatchStorage.BatchIsTight | src/producer.rs:1438-1451 | A batch that left as soon as it was complete is, minus its last item, all messages and below every positive limit |
| BatchStorage.ItemKeepsCollectorGood | src/producer.rs:1490-1504 | Receiving keeps storage incomplete, flush-free and correctly timed, and splits what was held plus the item into the emitted batch and what stays |
| BatchStorage.TimerKeepsCollectorGood | src/producer.rs:1520-1526 | So does an expiring timer, which emits everything stored |
| BatchStorage.ReceiveItem | src/producer.rs:1490-1504 | The imperative branch for a received item does to storage, timer and output what the specification step does |
| BatchStorage.ExpireTimer | src/producer.rs:1520-1526 | The imperative branch for an expired timer does what the specification step does |
| BatchStorage.Refuse | src/producer.rs:1505-1514 | On a closed channel every stored message is answered with Closed, in order, and a flush request is not answered |
| BatchStorage.CollectConserves | src/producer.rs:1470-1529 | Over any sequence of receives and expiries the emitted batches followed by what is stored are the received items in order, every batch is well formed, and the timer is right |
| BatchStorage.BatchProcessLoop | src/producer.rs:1470-1529 | The imperative loop emits exactly the batches of its specification and, once the channel closes, refuses exactly the messages still stored, in order |
| BatchStorage.LoadIsPayloadBytes | src/producer.rs:1425-1430 | If every entry states its payload's size, the size kept is the number of payload bytes stored |
| BatchStorage.OversizedPayloadFillsTheBatch | src/producer.rs:1426-1428 | A payload of 2^31 bytes or more is counted, sign-extended, as almost 2^64 bytes |
| BatchStorage.BatchesLeaveForAReason | src/producer.rs:1438-1526 | Every emitted batch reached the message or byte limit or ends with a flush request when its last item came in, or was everything stored when the timer of a configured timeout had run its time |
| PipelineTheorems.ReceiveEmitsExactlyWhatIsDue | src/producer.rs:1490-1504 | In every reachable state, receiving an item hands everything stored to the sending loop exactly if there are then enough messages or payload bytes, or the item is a flush request |
| PipelineTheorems.ExpiryEmitsWhatIsStored | src/producer.rs:1520-1526 | In every reachable state the timer expires only when the oldest stored item has waited for the timeout, and then everything stored leaves |
| SendLoop.CounterIsMessageCount | src/producer.rs:1559-1581 | In a well-formed batch, once a trailing flush is removed only messages remain, so the counter is their number |
| SendLoop.WithoutFlushKeepsSingles | src/producer.rs:1559-1569 | Removing a trailing flush request removes no message and no waiting caller |
| SendLoop.PrepareBatch | src/producer.rs:1556-1581 | The payload is the concatenated entries of the batch's messages and the receipt list their callers, both in order |
| SendLoop.ResolveReceipts | src/producer.rs:1612-1634 | After a failed send every caller gets the shared error; after a successful one caller i gets the receipt, with index i and the counter as batch size if it names an entry; nobody is skipped |
| SendLoop.SendOneBatch | src/producer.rs:1548-1635 | One iteration sends one envelope for a batch with messages and none for a lone flush, tells each caller how the send ended, and releases the flush waiter, signalled unless the send failed |
| SendLoop.MessageSendLoop | src/producer.rs:1532-1650 | Over any batches and replies the wire messages, answers and flush releases are those of the batches in order, empty batches ignored; callers of failed batches get the error, and only those of acknowledged ones a receipt |
| SendLoop.AnswersComeFromBatches | src/producer.rs:1612-1634 | What is answered is exactly what the finished batches answer |
| Bytes.U32RoundTrip | src/message.rs:247-248 | A size field reads back modulo 2^32, hence correctly exactly when the size is below 2^32 |
| Bytes.ByteOrderIsNumericOrder | src/message.rs:247-248 | Written fields compare byte by byte as their numbers do: they are big-endian |
| Framing.Encode | src/message.rs:233-274 | Appends to the buffer exactly the frame the protocol prescribes, with the checksum of the bytes it covers, and changes nothing already there |
| Framing.CommandFields | src/message.rs:246-249 | A frame starts with its size without the size field, the command's size and the command, and a frame without payload ends there |
| Framing.PayloadFields | src/message.rs:252-266 | Then come 0x0e01, the checksum of all that follows it, the metadata's size, the metadata and the data |
| Framing.SizedField | src/message.rs:495-508 | A sized field is taken exactly when enough bytes are there, splitting the input without loss |
| Framing.DecodePayload | src/message.rs:305-335 | A payload is accepted only if the checksum field equals the checksum of everything behind it |
| Framing.DecodeBytes | src/message.rs:287-347 | A decoded message consumes exactly the bytes its size field announces |
| Framing.Decode | src/message.rs:287-347 | The decoder's buffer advances by exactly one frame on success and is untouched when more bytes are needed or the frame is malformed |
| Framing.DecodeInvertsEncode | src/message.rs:233-348 | A frame followed by any bytes decodes to its message, consuming exactly the frame, if and only if its size fits the 32-bit field |
| Framing.ProperPrefixWaits | src/message.rs:289-346 | Every proper prefix of a frame yields nothing and consumes nothing |
| Framing.DeliveredPayloadIsChecked | src/message.rs:314-332 | On arbitrary input a delivered payload comes from bytes of that frame whose checksum field matches |
| Framing.DecisionIsStable | src/message.rs:287-347 | Bytes that arrive later never change a decision the decoder has taken |
| Framing.ChunkingIsIrrelevant | src/message.rs:287-347 | On every byte stream, well formed or not, and for every way of cutting it, reading chunk by chunk gives the messages, leftover and failure of reading it whole |
| Framing.StreamRoundTrip | src/message.rs:233-348 | However the encodings of a list of messages and part of one more frame are cut, exactly those messages come out in order and exactly that part is kept |
| BatchFormat.Serialize | src/message.rs:577-581 | Appends exactly the entry: metadata size, metadata, payload |
| BatchFormat.EntryReadsBack | src/message.rs:544-561 | An entry followed by any bytes parses to its message and those bytes if and only if the announced payload size is the payload's length |
| BatchFormat.SentEntryReadsBack | src/producer.rs:1007-1020 | An entry built by `send_raw` can be read back if and only if its payload is below 2^31 bytes |
| BatchFormat.ParseEntries | src/message.rs:564-573 | A successful parse returns exactly the requested number of messages |
| BatchFormat.BatchReadsBack | src/message.rs:564-582 | Parsing a batch with its own message count returns its messages in order, whatever follows |
| Base64.EncodeReadsBack | src/producer.rs:98-120 | Every byte string, of any length, is recovered from its padded base64 text |
| Base64.DecodeExactlyInvertsEncode | src/producer.rs:117-122 | Decoding accepts a text as b exactly when it is the encoding of b: no second text, no stray padding bits |
| Base64.SymbolsCarryTheBits | src/producer.rs:98 | Each group of symbols carries exactly the bits of its bytes, filled up with zero bits and padding at the end |
| Base64.KnownTexts | src/producer.rs:98 | Vectors of section 10 of RFC 4648, and one with the last two symbols of the alphabet |
| Messages.WireKeyRoundTrip | src/producer.rs:109-127 | Rebuilding a key from the metadata produced for it returns the original, for text, binary, null and absent keys |
| Messages.WireKeyIsInjective | src/producer.rs:225-230 | The three wire fields determine the key |
| Messages.RepublishedKey | src/producer.rs:104-127 | Republishing reproduces received key metadata exactly if it is plain text without flags, text flagged base64 that decodes, a null key, or no key at all; the key itself always stays the same, and flagged text that does not decode loses its flag |
| Messages.UnbatchedKeepsEverything | src/connection.rs:1793-1842 | A message sent by itself reaches the consumer with every field as the caller set it, null and empty payloads staying apart |
| Messages.WhatBatchingLoses | src/producer.rs:996-1020 | A message sent in a batch arrives with its batch's schema version, without replication override and delivery time, and otherwise as the caller set it; so it is unchanged exactly if it had neither and the schema version is its own |
| Messages.AsI32 | src/producer.rs:1619-1620 | The narrowing cast keeps a number exactly when it is below 2^31 |
| SendPath.SerialId.Get | src/connection.rs:350-352 | Returns the counter and advances it by one |
| SendPath.TopicProducer.SendOnConnection | src/connection.rs:816-883 | The receipt is registered for before the message is queued; on a live connection it is queued exactly if the channel has room, or gets room while a blocking send waits; a full channel fails with SlowDown exactly when blocking is off |
| SendPath.TopicProducer.TrySend | src/producer.rs:1177-1196 | A try draws the next sequence id, queues the message under it or not at all, and keeps ids growing |
| SendPath.TopicProducer.SendMessage | src/producer.rs:1150-1244 | Whatever pattern of failures the rounds meet, the message is queued exactly once, unchanged, on Ok and never on Err; every earlier round reconnected; the error is the one of the round that stopped; the producer's schema version is that of the last reconnection |
| SendPath.TopicProducer.SendRaw | src/producer.rs:1036-1054 | A message without schema version is queued with the producer's version from before the call, one with a version keeps it |
| SendPath.NumberedQueue | src/connection.rs:848-883 | Queueing under the newest id keeps registered and queued ids strictly increasing and every queued id registered |
| SendPath.NumberedRegister | src/connection.rs:848-856 | So does registering an id whose message is not queued in the end |
| SendPath.SendKeysAreUnique | src/connection.rs:475-478 | Over a producer's life no two queued messages share a sequence id, each queued id is awaited, and no id is awaited twice |
| RetryOp.RetryCreateProducer | src/retry_op.rs:151-251 | Every attempt uses the connection of the broker looked up last; only retryable errors within the budget are retried; a result is that of the last attempt, its schema version that of the last answer carrying one, and an error is one that could not be retried |
| Rendezvous.Receiver.Register | src/connection.rs:213-236 | The imperative branches for registrations do to both maps, the consumers and the ping what the specification step does |
| Rendezvous.Receiver.Deliver | src/connection.rs:245-318 | The imperative branches for inbound messages do what the specification step does, whose outputs over any history `EmitsWhatArrives` and `MapsFollowTheirKeys` give |
| Rendezvous.Receiver.PollOnce | src/connection.rs:204-330 | One poll handles all ready registrations and then all ready messages, in order, stops for good exactly on shutdown, departed senders, or a stream that ended or broke, and marks the connection failed in the latter cases and when a pong cannot be sent |
| Rendezvous.EachRequestGetsItsResponse | src/connection.rs:213-276 | In every interleaving in which no key's registrations and responses ever differ by more than one, no key is in both maps and the i-th registration of a key got exactly its i-th response |
| Rendezvous.BalancedIffNothingDropped | src/connection.rs:213-276 | That condition is exact: it holds if and only if no waiter and no response was ever overwritten |
| Rendezvous.EmitsWhatArrives | src/connection.rs:222-310 | In every interleaving the receiver passes on exactly the messages that arrived for a consumer with a registered channel, each to that channel and unmatched close requests included, and sends, signals and asks exactly one pong, pong signal or authentication per ping it can answer, awaited pong and challenge, all in the order of arrival |
| Rendezvous.ChannelsAreRegistered | src/connection.rs:225-233 | A consumer's channel is the last one added, unless the consumer was removed since |
| Rendezvous.MapsFollowTheirKeys | src/connection.rs:213-276 | In every interleaving, balanced or not, the maps hold for each key exactly the request or the response that waits by the events for that key alone, and no key is in both |
| Rendezvous.SecondWaitGetsSecondAnswer | src/connection.rs:928-969 | A request id registered a second time by an exclusive producer receives the second answer, whichever of the two came first |
| Rendezvous.FreshKeysAreBalanced | src/connection.rs:333-353 | Keys used for one request and answered at most once meet the condition in every order |
| ConnectionManager.Manager.LookupConnection | src/connection_manager.rs:321-349 | The locked region of `get_connection`: it returns a connection exactly if the entry holds a valid one, which is then recorded as used now; it joins exactly an attempt in progress, at the end of its list; otherwise, an invalid connection included, it reports a miss and changes nothing; other entries are never touched |
| ConnectionManager.Manager.EnterConnecting | src/connection_manager.rs:371-390 | The locked region of `connect_inner`: it waits exactly behind a non-empty waiter list, whose end it joins, inserts an attempt if there is no entry, and changes nothing else |
| ConnectionManager.Manager.Abandon | src/connection_manager.rs:483-501 | A failed attempt removes the entry and tells each of its waiters, in order, that the attempt was cancelled |
| ConnectionManager.Manager.Install | src/connection_manager.rs:559-581 | A successful attempt replaces the entry and gives each of its waiters the connection |
| ConnectionManager.Manager.CheckConnections | src/connection_manager.rs:586-630 | Attempts in progress stay, connections stay exactly if valid and held or recently used, and no kept entry changes |
| ConnectionManager.BackoffNeverShrinks | src/connection_manager.rs:430-435 | The exponential part of the backoff never decreases from one retry to a later one, saturation included |
| ConnectionManager.BackoffDoubles | src/connection_manager.rs:430-435 | It starts at the minimum and doubles from retry to retry up to the maximum, until the 32-bit power saturates |
| ConnectionManager.EstablishConnection | src/connection_manager.rs:404-455 | The loop ends at the first success or final error, or after exactly the allowed retries of retryable errors; each delay is the capped exponential plus the random number of minimal backoffs, at most nine |
| ConnectionSharing.StepKeepsInvariant | src/connection_manager.rs:316-630 | Every step of any task, in any interleaving, keeps entries owned, waiters listed, answers delivered once and connections matched to their brokers |
| ConnectionSharing.RunKeepsInvariant | src/connection_manager.rs:316-630 | That invariant holds after every interleaving of any number of tasks |
| SharingTheorems.EntryInProgressIsAttended | src/connection_manager.rs:371-396 | If no task is dropped and spawning works, the task that inserted an entry in progress is still on its way to close it |
| SharingTheorems.NoWaiterIsStranded | src/connection_manager.rs:339-363 | Under the same conditions every waiting task has its answer ready or is listed on an entry that is still attended |
| SharingTheorems.ClosingTellsEveryWaiter | src/connection_manager.rs:483-581 | The step that closes an entry answers every task waiting for that broker and leaves no waiter list behind |
| SharingTheorems.EachWaiterIsToldOnce | src/connection_manager.rs:490-497 | No task is ever notified twice and none wakes without having been notified exactly once |
| SharingTheorems.InserterLeavesIffItDied | src/connection_manager.rs:554-557 | Over every run, the task that inserted an entry in progress has left it behind if and only if it was dropped or could not spawn the keep-alive |
| SharingTheorems.UnhelpedIsStuck | src/connection_manager.rs:339-390 | A listed waiter is stuck for good when no task for its broker is attempting or has been told to: whatever happens afterwards, it stays listed and is never told |
| SharingTheorems.HelpedIsTold | src/connection_manager.rs:483-581 | With such a task, at most four further steps without drops and failing spawns tell the waiter, whether the attempt succeeds or fails |
| SharingTheorems.StuckIffNobodyHelps | src/connection_manager.rs:316-582 | The exact condition over every run, drops and failing spawns included: some continuation tells a listed waiter if and only if such a task exists |
| SharingTheorems.CallIsStuckIffNobodyHelps | src/connection_manager.rs:351-363 | A waiting call can never be told exactly if it has not been told yet and no such task exists |
| SharingTheorems.FailedSpawnStrandsWaiter | src/connection_manager.rs:554-557 | A concrete run in which a failing spawn strands a waiter: in every continuation it stays listed and untold |
| SharingTheorems.CallsReturnTheRightConnection | src/connection_manager.rs:316-364 | A call that returns a connection, own or shared, returns one made for the broker it asked for |
| SharingTheorems.LookupUsesValidConnections | src/connection_manager.rs:321-349 | A lookup step ends a call with a connection exactly if the broker's entry holds one that is valid at that moment; it is that connection, recorded as used now |
| SharingTheorems.EnteringWaitsBehindOthers | src/connection_manager.rs:371-396 | A connecting task waits exactly behind a non-empty waiter list, and otherwise attempts itself |
| SharingTheorems.ListedAreToldTheOutcome | src/connection_manager.rs:490-571 | Everyone listed is told the connection that was made, or that the attempt was cancelled |
| SharingTheorems.WakingTakesOver | src/connection_manager.rs:351-396 | A woken task takes over the outcome it was told, as its result or as that of its own attempt |
| SharingTheorems.TaskStepsUseUpRank | src/connection_manager.rs:316-582 | Every step of a task strictly decreases a natural measure, so no schedule goes on forever |
| SharingTheorems.OpenCallsCanProceed | src/connection_manager.rs:316-582 | While a call is open some task can take a step: waiting never becomes a deadlock |
| SharingTheorems.AllCallsReturn | src/connection_manager.rs:316-582 | From every undisturbed state, whatever attempts succeed, a bounded number of steps finishes all open calls |
| TopicLookup.Ask | src/service_discovery.rs:64-89 | A query goes out on a connection for the current broker address with the current authoritative flag, and once more on a new one if the first was disconnected |
| TopicLookup.RetryOrGiveUp | src/service_discovery.rs:91-144 | A failed lookup is retried exactly if its error allows it, the time limit has not passed and the budget is not used up |
| TopicLookup.RetryInTime | src/service_discovery.rs:111-124 | A retry made before the time limit keeps the number of retries at most the operation timeout over the retry delay, rounded up |
| TopicLookup.Follow | src/service_discovery.rs:155-198 | Following an answer yields the address prescribed by the chain, spelled out as for `LookupTopic`, or the error of an answer that names no usable URL |
| TopicLookup.LongerChain | src/service_discovery.rs:155-198 | One more answer makes the proxy flag the disjunction over the chain, the authoritative flag that of the last answer, and keeps earlier queries well asked |
| TopicLookup.LookupTopic | src/service_discovery.rs:48-215 | All answers followed but the last redirect and the last says connect. With scheme `pulsar+ssl` the result's address is the host and port of the last answer's TLS URL, 6651 if it has none; with `pulsar` those of its plain URL and 6650; a direct result uses that URL, a proxied one the configured URL. A lookup fails with NotFound for any other scheme, a missing URL of that kind or one that does not parse; every other error has its cause in what the loop met last, too. Retries respect both the rounded-up time bound and the budget |
| TopicLookup.NamedOrUnusable | src/service_discovery.rs:155-185 | An answer names a broker exactly if it is usable, and its error says why it is not |
| TopicLookup.TargetIsPrescribed | src/service_discovery.rs:155-198 | The address used for any chain of answers is the one spelled out above |
| TopicLookup.QueriesAreRight | src/service_discovery.rs:63-76 | Every query went to the broker that the answers before it led to, over a connection for that broker, and was authoritative exactly if the answer just before it said so |
| TopicLookup.ProxiedAddressUsesBaseUrl | src/service_discovery.rs:187-198 | The proxy flag is set exactly if some answer of the chain set it; a proxied address uses the configured URL, a direct one the last answer's URL of the scheme's kind |
| TopicLookup.LookupPartitionCount | src/service_discovery.rs:246-345 | A partition name is answered zero without a query; otherwise a count is that of the last, non-failed answer, all earlier replies were passing ones, and every error has its cause in the last reply; without auto-creation an old broker is never asked; retries respect the budget, and only the budget |
| PartitionNames.NameSplits | src/service_discovery.rs:31-38 | Splitting a generated name at the last separator gives back the topic and the digits, even if the topic contains the separator |
| PartitionNames.NameIsRecognised | src/producer.rs:653-659 | A generated name is recognised exactly if its topic is not empty, and then carries its index exactly if that fits the machine word |
| PartitionNames.PartitionNameForm | src/service_discovery.rs:31-38 | The partition names are exactly the texts made of a non-empty topic, the separator and at least one digit |
| PartitionNames.PartitionIndexForm | src/producer.rs:653-659 | A name has index k exactly if it ends, behind the separator and perhaps a plus sign, in digits worth k that fit the machine word |
| PartitionNames.NamesNeverCollide | src/service_discovery.rs:360-362 | A generated name determines topic and index |
| PartitionNames.WhereTheTestsDiffer | src/producer.rs:653-659 | The two partition-name tests disagree exactly on overflowing indices and on a leading plus sign |
| PartitionNames.PartitionsAreNotPartitioned | src/service_discovery.rs:266-268 | Looking up a partition that a lookup returned gives just that partition, whatever the broker would answer |
| PartitionNames.FirstNameTellsPartitioned | src/producer.rs:1355-1359 | The first returned name differs from the topic exactly when the topic is partitioned |
| JavaHash.Utf16RoundTrip | src/routing_policy.rs:55-57 | The UTF-16 units hashed determine the key, surrogate pairs included |
| JavaHash.SurrogatesCarryTheOffset | src/routing_policy.rs:55-57 | A character outside the basic plane is a high surrogate with the upper and a low one with the lower ten bits of its offset |
| JavaHash.JavaStringHash | src/routing_policy.rs:55-61 | Despite wrapping signed arithmetic the hash is the base-31 polynomial of the key's UTF-16 units modulo 2^31 |
| JavaHash.Mask | src/routing_policy.rs:70-74 | Masking keeps a raw hash modulo 2^31 |
| JavaHash.MaskMattersUnlessCountDivides | src/routing_policy.rs:70-87 | For a raw hash with bit 31 set the mask leaves the partition unchanged if and only if the partition count divides 2^31 |
| JavaHash.PartitionForKey | src/routing_policy.rs:103-109 | The index is below the partition count: the base-31 polynomial, or the murmur hash, modulo 2^31 and then modulo that count |
| PartitionedProducer.SortRestoresPartitionOrder | src/producer.rs:1373-1376 | Whatever the order of creation, sorting by partition index yields partition 0, 1, 2 and so on |
| PartitionedProducer.RefreshExtendsNames | src/producer.rs:693-756 | A successful re-check that reports partitions extends the producers to the larger of the two counts, in order |
| PartitionedProducer.ProducersAfter | src/producer.rs:693-756 | After any history of failed, shrinking and growing re-checks the producers are the partitions of the largest count seen, in order, with the bare topic among them exactly if an effective re-check reported an unpartitioned topic, in a place the sort determines |
| PartitionedProducer.ProducersFollowPartitions | src/producer.rs:693-756 | So producer i serves partition i if and only if no effective re-check ever reported an unpartitioned topic |
| PartitionedProducer.BareTopicComesLast | src/producer.rs:743-747 | For a topic whose name carries no partition index the producers are those partitions followed, if it joined, by the bare topic |
| PartitionedProducer.GrowthKeepsPrefix | src/producer.rs:743-747 | The producers built at the start keep their places, unless the bare topic joined and its name carries an index that sorts it among them; exactly then they do not |
| PartitionedProducer.PlusSignDisplacesPartition | src/producer.rs:653-659 | A concrete topic of that kind, whose own name displaces partition 1 |
| PartitionedProducer.Producers.constructor | src/producer.rs:1353-1395 | A built producer serves the partitions in order and starts at an index in range |
| PartitionedProducer.Producers.RefreshPartitions | src/producer.rs:693-756 | The imperative re-check does what the specification does, never drops a producer, and as long as partitions are reported keeps the old producers in place |
| PartitionedProducer.Producers.ChoosePartition | src/producer.rs:790-827 | Whatever the producers are: a message with a key goes to the key's hash modulo their number; one without stays on the stored index under Single and takes the next one under round robin, explicit or not; under a custom policy user code decides; only round robin moves the stored index |
| PartitionedProducer.HashedTextIsWireText | src/producer.rs:803-809 | The text hashed is always exactly the key text that goes on the wire |
| PartitionedProducer.SameKeySamePartition | src/producer.rs:776-827 | Two producers that have come to see the same partition count send messages with the same key text on the wire to the same partition, whatever their starting counts, re-checks, policies and earlier sends |
| PartitionedProducer.SingleStaysPut | src/producer.rs:814-818 | Over any messages a Single-policy producer sends every unkeyed one to its starting index and never changes that index |
| PartitionedProducer.SingleKeepsPartition | src/producer.rs:743-818 | It keeps its partition, by name, however the topic grows, but for the exception of `GrowthKeepsPrefix` |
| PartitionedProducer.CustomDecides | src/producer.rs:819-824 | Under a custom policy the index is the router's if that is in range, keyed or not, and the stored index stays |
| PartitionedProducer.UnkeyedGoRound | src/producer.rs:759-768 | Under round robin, explicit or by default, unkeyed messages advance by one partition each, however many keyed messages come in between |
| PartitionedProducer.RoundRobinIsFair | src/producer.rs:759-768 | Among any n consecutive unkeyed choices on n partitions, each partition is chosen exactly once |

## Left out

- TLS, sockets, DNS, executors, authentication, logging and telemetry: I/O without protocol state of its own.
- protobuf, CRC-32C, murmur3, URL parsing and compression: library code, taken as parameters; batches are modelled uncompressed, and protobuf decoding is only required to invert encoding.
- Consumers, acknowledgement, readers (`src/reader.rs`) and the dead-letter path: of consumers only the unpacking of batches and the metadata they see are modelled; of republishing only what becomes of the key.
- Admin client (`src/admin`): topic parsing, URL building and the REST calls.
- The outbound sink loop (`src/connection.rs:1500-1519`): the order in which control and data messages share the socket.
- Receipt timeouts (`src/connection.rs:886-925`): a timed-out receipt appears as a failed reply and as an invalid connection in the next round of a send.
- `retry_subscribe_consumer`: the same loop as `retry_create_producer` with another request.
- Encryption fields and the compression fields of messages: never set on the paths modelled, where payloads are uncompressed.
- Counters: sequence ids, request ids and retry counters are unbounded naturals; wrap-around after 2^64 or 2^32 steps is not modelled, nor is overflow of the stored payload total.
- Machine words: `usize` is taken to be 64 bits wide.
- Pipeline.RunKeepsInvariant: the interleaving tasks are modelled on values; `Refinement.ScheduleIsIrrelevant` ties them to the imperative loops. A caller's dropped future and a failing spawn of the two loops are not modelled.
- BatchStorage.BatchProcessLoop: input that ends stands for the channel closing; a send to the batch channel whose receiver is gone is not modelled, since the sending loop outlives the collecting loop.
- SendLoop.MessageSendLoop: the two sides of one send, `send_message` and the wait for its receipt, are one reply here; `SendPath.TopicProducer.SendMessage` models the former by itself.
- SendPath.TopicProducer.SendMessage: Dafny loops end, so the unbounded loop is proved for any number of first rounds; the same holds for `RetryOp.RetryCreateProducer`, `TopicLookup.LookupTopic` and `TopicLookup.LookupPartitionCount`. The attempt to close the old producer before reconnecting, whose result is ignored, is not modelled.
- TopicLookup.LookupPartitionCount: no time limit is claimed, because the code has none; only the retry budget, unlimited by default, ends it.
- PartitionedProducer.Producers.ChoosePartition: an index out of range from a custom policy panics in the source; here it is the absence of an index.
- PartitionedProducer.Producers.constructor: the unpartitioned producer and failures to look up or create a producer are not modelled, as they leave no producer to speak of. A topic producer is represented by its topic name.
- PartitionedProducer.ProducersFollowPartitions: partition counts are bounded by their 32-bit wire field.
- SharingTheorems.AllCallsReturn: at most one connector per broker is not claimed; the code lets two tasks connect at once when the waiter list is empty.
- ConnectionManager.Manager.CheckConnections: the keep-alive task and the sweep timer that call into the cache are not modelled; the sweep may run between any two steps.
