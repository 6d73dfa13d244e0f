# Verified model of the expedit messaging library

expedit moves messages between a program and its brokers. This project models the parts of it where the order of
events matters, and proves what every order of events keeps: the in-process delivery engine, the publisher cache, the
AMQP re-consume loop, and the Redis subscriber with its consumer groups. It also models the two small mappings that
the rest relies on, middleware composition and the Redis values of a message.

`dafny verify dfyconfig.toml` checks the whole project.

## How the models are built

Concurrent parts are step systems: a state, the events that may happen in it (`Enabled`), and what each of them does
(`Apply`). A step is one atomic action of the code: a channel operation, a test of ctx, a critical section under a read
lock, one action while the write lock is held. A run is a legal sequence of events, so a lemma over event sequences is
a statement about every interleaving. Sequential parts are classes and methods with the loops of the code.

| module | what it models |
|---|---|
| `DeliveryEngine`, `DeliveryThresholds`, `DeliveryProgress` | `ChannelSubscriber.Receive` and `drain` with the Dispatcher, as an interleaved step system |
| `ChannelSubscriber` | the same as the loops of the code over the fields that the goroutines share, proved to refine the step system |
| `DispatcherProtocol` | the Dispatcher with any number of concurrent `Dispatch` calls, delivery by delivery |
| `Messages`, `Outcomes` | messages, contexts, `Handle`, the refusal of `Dispatch`, `ContextTimeout` |
| `Middlewares` | `Chain`, `ConvertPanicToError`, `OnError`, the conditional middlewares |
| `PublisherCache`, `PublisherCacheRefinement`, `PublisherCacheProgress`, `MessagePublisher` | the publisher cache with concurrent `getPublisher` and `Close`, its refinement of an atomic map, its progress, and its sequential code |
| `AmqpConsume` | the goroutine of `ReconnectingChannel.Consume`, `IsClosed`, `Close`, and the loop of `Receive` of the AMQP subscriber, which meet at the unbuffered deliveries channel |
| `RedisValues` | writing a message into the values of a stream entry and reading it back |
| `RedisCursor` | the Redis subscriber without a consumer group |
| `RedisGroup`, `RedisTiming`, `RedisRuns`, `RedisOverlap`, `RedisOverlapWitness` | the consumer group protocol, with its clock, and when handlers overlap |
| `RedisSweep`, `RedisGroupSweep`, `RedisGroupReceive`, `RedisLoneConsumer` | the claim cursor over the pending list, the claims of the group protocol as such a sweep, the read loop of a consumer that moves it, and when an entry may starve |
| `Wrappers`, `Sequences` | what several of these need |

## Where the code and its comments disagree

The model follows the code. Each of these is stated as an equivalence, so the project says exactly when the intended
property holds:

- The comment on `retry` (core/subscriber/channel.go:30-31) says that sending to it never blocks. A nacked message
  gives its slot back, and the select of `Receive` may keep choosing the input, so retry can fill. Sending never blocks
  exactly when at most maxInFlight + 1 messages are taken and not acked (`NackNeverBlocksIff`). That is also the exact
  threshold for a shutdown and for drain to end; the running loop can deadlock from 2 * maxInFlight + 2 on.
- The check of `NewRedisSubscriber` (redis/subscriber.go:177-185) is meant to keep another consumer from claiming a
  message that is still being processed. Time spent waiting for a slot counts as idle time, so it does not: with B the
  largest batch and M the slots, two handlers of one entry never overlap exactly when (ceil(B/M) + 1) times the
  processing time is below the idle timeout (`NoOverlapIff`), which the default processing timeout never satisfies
  (`DefaultTimeoutMayOverlap`). The time a batch is on its way to the consumer counts only as far as it exceeds the
  processing time, since the slots the batch waits for are taken as long (`LongestTurnIs`).
- The comments on claiming (redis/subscriber.go:197-198, 254) say that a message left pending is claimed once it is
  idle. In a group with one consumer, every entry that stays pending and idle is claimed within two claims more than the
  pending list is long exactly when maxInFlight is below the pending message batch size (`LoneConsumerClaimsIff`).
  Otherwise each read may deliver as much as a claim takes, and the claim cursor stays ahead of the entry for any
  number of claims (`LoneConsumerMayStarve`). The default limits, 10 and 10, are on that side
  (`DefaultLimitsMayStarve`).

## Assumptions

- Handlers return or panic. `Ack`, `Nack` and the error callbacks return and do not panic.
- `Wait` is called by the loop that calls `Dispatch`, after its last call.
- In-flight limits and batch sizes are positive after defaulting.
- A panic that is not converted ends the process; the runs of `DeliveryEngine` are those before that point.
- Redis streams are not trimmed while they are read. A stream ID ms-seq is the number ms * 2^64 + seq.
- In `RedisTiming`, a handler with its ack ends within the processing timeout, Dispatch does not wait while a slot is
  free, and a batch is on its way from the broker to the consumer for no longer than a latency, which may be anything. A
  claim or a read may take any time before it reaches the broker, and its reply may be lost.
- `XAUTOCLAIM` looks at the pending entries in the order of their IDs, at ten for each one it may claim, and `XREAD`
  returns the first entries after an ID. `XREADGROUP` returns as many new entries as there are, up to its count.
- The Redis client writes a value that is not a string as some string, or fails; reading gives strings. `XADD` refuses
  an entry without values.

## Model

| member | source | states |
|---|---|---|
| DeliveryEngine.MessagesAreConserved | core/subscriber/channel.go:26-60 | in every state of every run, each message taken from the input is acked, in a handler, in a nack, in retry or held by the loop, as often as it was taken, and at most maxInFlight handlers run |
| DeliveryEngine.RunKeepsInv | core/subscriber/dispatcher.go:58-75 | the semaphore counts the goroutines that hold a slot, the wait group those that are not done, retry stays within its capacity, and a finished Wait of drain leaves no goroutine |
| DeliveryEngine.ReturnLeavesNoHandler | core/subscriber/channel.go:47-49 | when Receive has returned no handler is left, only the messages in retry were dropped, and without a done ctx none |
| DeliveryEngine.AckedIffLastAttemptSucceeded | core/subscriber/dispatcher.go:100-107 | a message sent once is acked if and only if its last attempt returned nil |
| DeliveryEngine.RetryIsFirstInFirstOut | core/subscriber/channel.go:38-41 | messages are dispatched again in the order they were nacked, none lost or repeated |
| DeliveryThresholds.QuiescentShapes | core/subscriber/channel.go:45-77 | the complete list of states in which the engine stands still, and how many messages are then outstanding |
| DeliveryThresholds.NackNeverBlocksIff | core/subscriber/channel.go:30-41 | no nack ever blocks on retry, in all runs with at most bound outstanding messages, if and only if bound is at most maxInFlight + 1 |
| DeliveryThresholds.ShutdownNeverHangsIff | core/subscriber/channel.go:47-49 | after ctx is done the engine stands still only by having returned, under the same exact bound |
| DeliveryThresholds.DrainNeverHangsIff | core/subscriber/channel.go:64-77 | drain never stands still, under the same exact bound |
| DeliveryThresholds.ReceiveNeverDeadlocksIff | core/subscriber/channel.go:45-60 | with ctx not done and the input open the engine stands still only when idle, if and only if at most 2 * maxInFlight + 1 messages are outstanding |
| DeliveryProgress.ShutdownEnds | core/subscriber/channel.go:47-49 | within the bound, a run after ctx is done has a bounded number of steps but for the times the select prefers a message, and stops only by returning |
| DeliveryProgress.ShutdownStartsNoHandler | core/subscriber/dispatcher.go:58-75 | once ctx is done no message is handled any more, except one whose Dispatch had already seen ctx not done |
| DeliveryProgress.DrainTerminates | core/subscriber/channel.go:63-77 | drain entered within the bound ends after a number of steps bounded by what is left and by how often handlers still fail, and every message is then acked as often as it was taken |
| DeliveryProgress.DrainHandlesOneAtATime | core/subscriber/channel.go:65-73 | in every run, from where a Wait of drain has returned, no two messages are handled at the same time |
| ChannelSubscriber.Subscriber.constructor | core/subscriber/channel.go:16-24 | a limit that is not positive becomes 1, and Receive starts with nothing taken |
| ChannelSubscriber.Subscriber.Dispatch | core/subscriber/dispatcher.go:58-75 | when Dispatch returns, the message is with a goroutine that holds a slot and ctx was not done before, or it is at the end of retry and ctx is done; it goes on waiting only while all slots are taken and ctx is not done, or retry is full |
| ChannelSubscriber.Subscriber.Drain | core/subscriber/channel.go:64-77 | the loop of drain goes through a run of the step system; each turn after a Wait takes one message from retry, or returns, which it does only when ctx is done or retry is empty; it waits only if it has to |
| ChannelSubscriber.Subscriber.MustWaitIff | core/subscriber/channel.go:45-77 | where the methods say that the loop waits because it has to, no step of it is possible |
| ChannelSubscriber.Subscriber.Select | core/subscriber/channel.go:45-59 | an arm that is chosen and ready is taken: a done ctx or a closed input ends the loop, the first message of retry is taken from it, a message that arrives is taken, and a nil one changes nothing |
| ChannelSubscriber.Subscriber.Stop | core/subscriber/channel.go:47-49 | the ctx.Done arm returns as soon as its Wait does, and waits only while the wait group is not at zero |
| ChannelSubscriber.Subscriber.Receive | core/subscriber/channel.go:28-61 | the loop with its select, dispatch and drain, for any choice of ready arms and whatever the handlers and ctx do, goes through a run of the step system; while it goes on it takes what its arms offer, and it does not go on past a done ctx; messages are conserved; when it has returned no goroutine is left and without a done ctx every message is acked; with at most maxInFlight + 1 outstanding it cannot hang in a shutdown |
| DispatcherProtocol.AtMostMaxHandlers | core/subscriber/dispatcher.go:21-26 | at most MaxInFlight handlers run at the same time, for any number of concurrent Dispatch calls |
| DispatcherProtocol.WaitMeansAcknowledged | core/subscriber/dispatcher.go:109-118 | when Wait can return, each delivery whose Dispatch returned had exactly one Ack or Nack call, Ack if and only if its handler returned nil, and a Nack without handling only if its ctx was done |
| DispatcherProtocol.DoneCtxMeansRefused | core/subscriber/dispatcher.go:56-75 | a delivery dispatched with a done ctx is never handled or acked, and is nacked exactly once when its Dispatch call has returned |
| DispatcherProtocol.CancelledNeedNotWait | core/subscriber/dispatcher.go:58-75 | a delivery whose ctx becomes done before it got a slot need not wait for one: its Dispatch call can nack it at once, whatever the slots |
| DispatcherProtocol.MayBeCancelled | core/subscriber/dispatcher.go:71-74 | and its ctx may become done at any time |
| DispatcherProtocol.FreeSlotMeansHandled | core/subscriber/dispatcher.go:64-70 | while a slot is free, a new delivery can be handled at once, whatever the others do |
| DispatcherProtocol.RunIsBounded | core/subscriber/dispatcher.go:58-107 | a run with n Dispatch calls has at most 9 * n steps |
| DispatcherProtocol.StandstillMeansAcknowledged | core/subscriber/dispatcher.go:58-107 | when no delivery can take a step any more and no handler panicked, each of them is done and was acknowledged once |
| Messages.Message.constructor | core/message/message.go:21-28 | a new message has an empty ID and its own empty metadata |
| Messages.Message.WithMetadata | core/message/message.go:30-33 | one metadata entry is set; a message without a metadata map panics |
| Messages.Message.Copy | core/message/message.go:44-50 | the copy equals the message and shares no metadata map with it; no map stays no map |
| Messages.Attempts | core/subscriber/channel.go:33-36 | whatever the handlers of earlier attempts change, the next attempt starts from the content of the original |
| Messages.LayerDeadlineIs | core/message/middleware/flow.go:13-16 | the deadline of each layer is its timeout, counted from when the layers outside it have passed |
| Messages.DoneMeans | core/subscriber/dispatcher.go:86-93 | a context is done exactly when it or one it is derived from was cancelled or timed out; one detached from its parent is not |
| Messages.RunWithTimeouts | core/message/middleware/flow.go:9-22 | under a stack of ContextTimeout the handler's deadline is the least of all, and the message is left with a context that is done |
| Messages.Handle | core/subscriber/dispatcher.go:83-107 | in each of its three ends one acknowledgement, an ack if and only if the handler returned nil, with a context that is never done and keeps the values; the handler's deadline is the least of the processing timeout and the middlewares' timeouts; a failed acknowledgement is reported; a panic continues |
| Messages.Dispatch | core/subscriber/dispatcher.go:58-75 | a delivery is refused exactly when ctx is done first; handled or refused, it gets one acknowledgement with a context that is never done, and an ack only if it was handled with success |
| Middlewares.Chain.Wrap | core/message/middleware/chain.go:17-23 | the backward loop computes the composition in which the first middleware is the outermost |
| Middlewares.WrapConcat | core/message/middleware/chain.go:17-23 | wrapping with two chains in a row is wrapping with the inner one and then the outer one |
| Middlewares.ConvertOnlyChangesPanics | core/message/middleware/error.go:8-23 | a result that is not a panic is returned as it is; a panic with an error becomes that error, one with another value an error that holds it |
| Middlewares.OnErrorKeepsTheOutcome | core/message/middleware/error.go:25-35 | the function is called exactly when the handler returned an error, with that error, and the error is returned |
| Middlewares.ConvertedIsAckedIff | core/subscriber/dispatcher.go:94-106 | with ConvertPanicToError outermost, a message is acked if and only if what is inside returned nil, and otherwise nacked without a panic going on |
| Middlewares.ConvertedChainNeverPanics | core/message/middleware/error.go:8-23 | with ConvertPanicToError in the chain and nothing outside it that panics on its own, Handle never re-panics, and acks if and only if the composed outcome is nil |
| Middlewares.BuiltInsAddNoPanic | core/message/middleware/flow.go:40-61 | the conditional middlewares, OnError and ConvertPanicToError do not panic on their own if the functions they are given do not; a condition may panic and change the state |
| Middlewares.OnErrorSeesPanicsOnlyOutside | core/message/middleware/error.go:25-35 | OnError handles a panic as an error if it is outside ConvertPanicToError, and is not called if it is inside |
| Middlewares.FirstConditionDecides | core/message/middleware/flow.go:52-61 | conditions are asked in turn, each in the state that the ones before it left, up to the first that applies or panics; its function runs, or nothing does, and the handler runs only if all pass |
| Middlewares.SkippedIsAcked | core/message/middleware/flow.go:43-47 | a skipped message is acked in the state the condition left, without anything inside the condition running; a condition that panics has it nacked |
| PublisherCache.StepKeepsInv | core/publisher/publisher.go:99-150 | every step keeps the lock discipline, one cached publisher for each created one while open, and an empty map with all closed once after Close |
| PublisherCacheProgress.RunIsBounded | core/publisher/publisher.go:99-150 | a run with n calls has at most 7 * n steps, however the calls race |
| PublisherCacheProgress.StandstillMeansReturned | core/publisher/publisher.go:99-150 | the lock never keeps calls waiting for ever: the cache stands still only when every call has returned |
| PublisherCacheRefinement.StepRefines | core/publisher/publisher.go:99-150 | every step is invisible, or is exactly one operation of the atomic map with the result the call will return |
| PublisherCacheRefinement.CacheLinearizes | core/publisher/publisher.go:99-150 | the history of every run is a run of the atomic map ending in what the cache holds, and each call that returned has exactly one entry in it, with the operation that was invoked and its result |
| PublisherCacheRefinement.CreationErrorsAreReported | core/publisher/publisher.go:121-124 | the call that tried a creation that fails returns its error, and no other call does |
| PublisherCacheRefinement.HitsTakeNoLock | core/publisher/publisher.go:99-109 | a lookup takes the write lock exactly when the cache is open and does not hold the destination |
| PublisherCacheRefinement.OnePublisherPerDestination | core/publisher/publisher.go:117-129 | at most one publisher is ever created for a destination |
| PublisherCacheRefinement.LookupsAgree | core/publisher/publisher.go:100-130 | all successful lookups of a destination return the same publisher |
| PublisherCacheRefinement.NothingCreatedAfterClose | core/publisher/publisher.go:113-116 | nothing is created once Close has set the flag |
| PublisherCacheRefinement.FailuresAreKept | core/publisher/publisher.go:143-149 | in every run no error that closing a publisher returned is lost |
| PublisherCacheRefinement.CloseAccounting | core/publisher/publisher.go:134-150 | each publisher ever created is closed exactly once, the first Close returns exactly the errors that those calls returned in the run, later ones nil |
| MessagePublisher.Publisher.GetPublisher | core/publisher/publisher.go:99-130 | one get-or-create of the atomic map; a failed creation leaves no entry |
| MessagePublisher.Publisher.Close | core/publisher/publisher.go:134-150 | one close-all of the atomic map; all are closed even if some fail, and the joined errors are exactly those of the publishers that fail, each as often as there are such publishers |
| MessagePublisher.Publisher.Publish | core/publisher/publisher.go:72-96 | exactly when a message is published, by which publisher, and when its ID is replaced; otherwise which error is returned, and what was created |
| AmqpConsume.Consumption.Reconsume | amqp/channel.go:130-149 | an outage begins only on a lost channel; the retry strategy is asked for 0, 1, 2, .. in it, with a counter that lives across outages; each of its delays that elapses is followed by one consume; it ends with a session on the channel that is current then and the counter back at 0, with a done ctx or with a set flag |
| AmqpConsume.Consumption.ReceiveNext | amqp/channel.go:117-130 | when a session has ended, an outage begins only if its channel is lost, and otherwise the goroutine ends |
| AmqpConsume.Consumption.Advance | amqp/channel.go:116-150 | from one send to the next, across sessions and outages, nothing that was received is lost, the counts are kept, and every session but the last ended with the loss of its channel |
| AmqpConsume.Consumption.ConsumeLoop | amqp/channel.go:113-151 | from wherever the goroutine is, and whatever takes its deliveries: they are emitted in order, but for the last one when ctx is done; the output is closed once; there are exactly three reasons to end, and a done ctx gives up the delivery that nobody takes |
| AmqpConsume.Consumption.Close | amqp/channel.go:82-91 | ErrClosed exactly if the flag was set before; otherwise the flag is set and the current amqp channel is closed, though another Close may race |
| AmqpConsume.Consumption.Receive | amqp/subscriber.go:104-134 | what is dispatched is what was emitted, in order; the first session is on the channel that is current; nil is returned exactly when ctx is done, possibly while the goroutine of Consume still runs, and at once if the select prefers a done ctx; a closed channel is reported only after every received delivery was dispatched |
| RedisValues.MetadataWithPrefix | redis/values.go:8-17 | every metadata key gets the prefix and keeps its value, and there is no other key |
| RedisValues.PrefixMetadataExtractor | redis/values.go:19-33 | exactly the string values under prefixed keys, without the prefix |
| RedisValues.NonPrefixPayloadExtractor | redis/values.go:49-61 | exactly the values under keys that do not start with the prefix |
| RedisValues.Marshal | redis/publisher.go:105-122 | metadata values first, overwritten by payload values |
| RedisValues.MetadataReadBack | redis/values.go:21-33 | exactly which metadata is read back for any message: all of it, as the strings the client wrote, with payload values in place of metadata under the same key |
| RedisValues.PayloadReadBack | redis/values.go:51-61 | exactly which payload is read back for any message: the keys without the prefix, with their values as strings |
| RedisValues.RoundTripIff | redis/publisher.go:105-122 | both maps are recovered if and only if there are values at all, all of them are strings and no payload key starts with the prefix, whatever the client writes for other values |
| RedisCursor.Stream.ResolveStartID | redis/subscriber.go:302-318 | the start is the given ID, or the last generated ID, which is 0-0 for a stream that does not exist |
| RedisCursor.Stream.DispatchAll | redis/subscriber.go:292-297 | dispatching a batch moves the cursor over exactly the entries dispatched, while entries are appended |
| RedisCursor.Stream.ReadAndDispatch | redis/subscriber.go:278-297 | when a read times out, exactly the entries after the start have been dispatched, of the stream as it is then; otherwise the entries it returned are dispatched |
| RedisCursor.Stream.ReadLoop | redis/subscriber.go:241-300 | what is handed to Dispatch is exactly the entries after the start, in order, without gap or duplicate, up to some point, which is not before the end the stream had at the last timeout; every read times out or dispatches something; the loop ends with an error exactly when a command failed, and otherwise only because ctx is done |
| RedisCursor.Stream.Receive | redis/subscriber.go:200-215 | nil is returned exactly when ctx is done, and otherwise the error of a failed command |
| RedisGroup.ProcessingTimeoutIs | redis/subscriber.go:173-176 | the given processing timeout, or 4/5 of the idle timeout, cut off |
| RedisGroup.NewRedisSubscriber | redis/subscriber.go:173-192 | in a group with positive limits, exactly the configurations that the results below are about are accepted; without a group any processing timeout is |
| RedisGroup.ConsumerGoesOn | redis/subscriber.go:241-300 | a consumer never gets stuck: until its loop has ended, its last batch was dispatched or dropped and its handlers are done, there is something it can do without anything going wrong |
| RedisGroup.StopsForAReason | redis/subscriber.go:251-300 | its loop ends only with a done ctx, a failed command or a lost reply |
| RedisGroup.ShutdownEnds | redis/subscriber.go:207-211 | once its ctx is done a consumer takes a bounded number of steps in any run, and does not stand still before Receive is through |
| RedisGroup.ShutdownStartsNothing | redis/subscriber.go:249-297 | from then on at most one more claim, read and handler start, each only if its test of ctx was already past |
| RedisGroup.NothingStartsAfterDrop | core/subscriber/dispatcher.go:58-75 | once a message was refused because ctx is done, no handler is started any more |
| RedisGroup.ReadMissesNothing | redis/subscriber.go:278-288 | a read gets what is new as far as its count allows, and times out only if nothing is |
| RedisGroup.CrashLosesNothing | redis/subscriber.go:254 | a consumer may crash at any time, and leaves the pending list as it is |
| RedisGroup.GroupConservation | redis/subscriber.go:195-199 | under crashes, failed acks, nacks, claims and shutdowns each entry delivered to the group is pending or acked, never both, and acked only after a handler returned nil for it |
| RedisGroup.AppliedAckIsFinal | redis/subscriber.go:328-333 | once an ack reached the broker the entry is acked for ever and cannot be claimed |
| RedisGroup.PendingChangesOnlyByAck | redis/subscriber.go:334-337 | without an ack that reaches the broker an entry stays pending |
| RedisTiming.SlotWaitBound | redis/subscriber.go:267-296 | the j-th message of a batch gets its slot within ceil(j/M) times the handling time of the batch's arrival, whatever still holds slots; from its delivery by the broker on, the first of these times is replaced by the latency if that is longer |
| RedisOverlap.OwnedIsNotIdle | redis/subscriber.go:69-72 | with short turns, what a consumer works on was delivered too recently to be claimed |
| RedisOverlap.NoOverlapIfTurnsAreShort | redis/subscriber.go:256-277 | with short turns no two handlers of one entry overlap, in any timely run of any number of consumers |
| RedisOverlapWitness.NoOverlapIff | redis/subscriber.go:177-185 | for every accepted configuration and latency, handlers of one entry never overlap if and only if the longest turn is below the idle timeout; the run that fails is one of the receive loop, with its ctx test, its claims before each read and their order |
| RedisOverlapWitness.LongestTurnIs | redis/subscriber.go:177-185 | the longest turn is (ceil(B/M) + 1) times the handling time, and what the latency exceeds the handling time by |
| RedisOverlapWitness.DefaultTimeoutMayOverlap | redis/subscriber.go:165-185 | the default processing timeout passes the constructor's check and allows an overlap for every idle timeout, slots and batch size |
| RedisSweep.SweepReaches | redis/subscriber.go:249-269 | an entry that stays pending and idle is claimed after at most as many iterations as are left to scan, if fewer entries are delivered per iteration than a claim may take |
| RedisSweep.SweepReachesIff | redis/subscriber.go:249-269 | of the cursor alone, with any entries idle, acked and delivered around each claim: in every sweep from an empty list the entry is claimed within one iteration more than the list is long if and only if fewer are delivered per iteration than a claim may take |
| RedisGroupReceive.WaitingIsClaimed | redis/subscriber.go:249-269 | whatever happens between the claims, an entry that stays pending and idle for two iterations more than the pending list is long is in the reply of one of their claims, if fewer entries are delivered per iteration than a claim may take |
| RedisGroupSweep.RunSweeps | redis/subscriber.go:249-269 | in every run of the group protocol, the claims of a consumer are a sweep of the pending list with the replies that the sweep says, whatever the other consumers do |
| RedisGroupSweep.WaitingEntryIsClaimed | redis/subscriber.go:249-269 | so an entry that stays pending and idle for two claims more than the list is long is in the reply of one of them, if fewer entries are delivered from one claim to the next than a claim may take |
| RedisLoneConsumer.LoneConsumerClaims | redis/subscriber.go:249-297 | with maxInFlight below the batch size, every entry that stays pending and idle for two claims more than the pending list is long is in the reply of one of them, in every run of a group with one consumer |
| RedisLoneConsumer.LoneConsumerMayStarve | redis/subscriber.go:249-297 | otherwise, for any number of claims, some timely run of the lone consumer keeps an entry pending and idle at all of them without claiming it |
| RedisLoneConsumer.LoneConsumerClaimsIff | redis/subscriber.go:249-297 | so for every accepted configuration such an entry is claimed in all timely runs if and only if maxInFlight is below the batch size |
| RedisLoneConsumer.DefaultLimitsMayStarve | redis/subscriber.go:165-172 | with the default limits an entry may starve, for all timeouts that are accepted |
| RedisGroupReceive.ReplyIsClaim | redis/subscriber.go:256-265 | a reply holds exactly the entries the claim takes, no more than asked for |
| RedisGroupReceive.Group.ClaimAndDispatch | redis/subscriber.go:251-269 | one claim from where the last one stopped, all of whose entries are dispatched |
| RedisGroupReceive.Group.ReadAndDispatch | redis/subscriber.go:271-297 | one read of new entries, all of which are dispatched; a timeout is no error and dispatches nothing |
| RedisGroupReceive.Group.ReadLoop | redis/subscriber.go:241-300 | in group mode exactly what the replies hold is dispatched, in order, the claims are one sweep from 0-0 on, no batch exceeds the larger limit, and an entry that waits that long is dispatched; the loop ends with an error exactly when a command failed, and otherwise only because ctx is done |
| RedisGroupReceive.Group.Receive | redis/subscriber.go:200-215 | nil is returned exactly when ctx is done, and otherwise the error of a failed command |

## Left out

- Connection-level reconnection of AMQP (amqp/connection.go), and races between closing a channel and its watcher.
- amqp/subscriber.go `delivery`: which broker call an acknowledgement makes is a one-branch mapping of two options.
- Brokers and client libraries, beyond the steps listed under Assumptions; error-string matching in `createConsumerGroup`.
- The Google subscriber and publisher, whose concurrency is inside their SDK.
- Router, engines, JSON and Prometheus middlewares, `Throttle`, `Equals` and `HandleWithPayload`: library calls or one-branch logic.
- amqp/headers.go and `PrefixPayloadExtractor` repeat the prefix mapping of redis/values.go.
- What a payload points to: a copy of a message is shallow, so attempts are isolated in ID, context, payload field and metadata map only.
- A publish with a destination publisher that was obtained before `Close`: the code allows it.
