# Order pipeline verification

A Dafny model of the platform's asynchronous order pipeline and of two of its CI gates, with proofs of what they
guarantee. `dafny verify dfyconfig.toml` checks the whole project.

The pipeline: requests to order-service look up an idempotency key, check that the user exists (Redis in front of
user-service), store the order and the key in one transaction and publish `order.created`. RabbitMQ routes the event
to notification-worker, which records one notification per event and retries or dead-letters what it cannot record.
An operator can replay the dead-letter queue.

| file | contents |
|---|---|
| `Common.dfy`, `Uuid.dfy` | shared values; UUID text and the lower-case form a `uuid` column returns |
| `OrderEvent.dfy` | the message body: what order-service publishes, what the worker accepts |
| `Directory.dfy` | user lookup with its cache |
| `Orders.dfy` | order creation as a transition system, one action per awaited operation, and its invariant |
| `Linearizability.dfy` | the sequential history behind every interleaving |
| `OrderGuarantees.dfy` | what order creation guarantees over runs |
| `OrdersService.dfy` | `create` as one method with interference at every await, tied to the transition system |
| `Deaths.dfy` | broker topology, the `x-death` header and the attempt counter |
| `Consumer.dfy` | one delivery, from `handleMessage` to its settlement |
| `Broker.dfy`, `BrokerGuarantees.dfy` | the retry and dead-letter protocol over all copies of all messages |
| `RetryTermination.dfy` | how the retries of one message end, over all runs |
| `Pipeline.dfy` | both services and the broker together |
| `Publisher.dfy` | order-service's lazily opened, single-flight publisher channel |
| `Session.dfy` | the worker's reconnect loop, its backoff and the shutdown time |
| `DependencyGate.dfy`, `ImageGate.dfy` | the two scan gates |

## Reading the model

- The two protocols are transition systems: an action carries everything that is not determined by the state (HTTP
  replies, Redis and database faults, lost acknowledgements, generated ids), so a run is a sequence of actions and
  `Enabled`/`Apply` say what can happen. Theorems quantify over all runs, or over all states `Reachable` by one.
- `Linearizability.History` builds the sequential history of a run. A 201 takes effect at its commit, a replay or 409
  at the key lookup that found the key, a 422 of a keyed request at its first key lookup. Whether a lookup that found
  nothing ends in a 422 depends on the rest of the run, which is why the history is defined from the final state.
  Requests that end in a 5xx, or are still open, may or may not be in the history, at most once.
- In `Broker`, every physical copy of a message has its own identity. The no-loss proof rests on *firm* copies: copies
  that nobody is about to remove on the strength of another copy or of a stored row.
- Assumptions: generated order and event ids are fresh; the broker is durable, dead-letters atomically and is not
  purged; a unique violation is raised only against a committed row, and a second inserter of a key waits for the
  transaction that holds it; user-service answers truthfully from a table that only grows; logging and metrics do not
  throw; order-service is the only publisher to the `orders` exchange (needed in `Pipeline` only).

## Where code and documentation differ

- A repeated request is documented to return the original order (FR-9 in
  docs/features/order-notification/REQUIREMENTS.md). `replay` compares the stored, lower-case user id with the
  caller's spelling, so the owner gets a 409 exactly when the id was spelled with a capital letter.
- The comment above `create` says a replay does not compare the payload; the code compares the user id.
- The comment on the shutdown timeouts leaves the wait for the loop out of its sum and asks for a comfortable margin
  under 10 s; the sum is exactly 10 s when every wait runs into its bound.
- The image-scan gate is documented to require a date at most 90 days out; text of the right shape that is not a date
  passes.
- The dependency gate keeps one entry per advisory and package, the last one; a milder repetition hides a serious one.
- A channel that closes on a live connection makes the publisher open a second connection and forget the first; when
  the first closes later, the publisher forgets the second.
- The publisher's close handler logs that the next publish will reconnect. If the connection closes before the reply to
  its channel request is handled, the dead channel is stored afterwards and the next publish uses it.

## Model

| member | source | states |
|---|---|---|
| Linearizability.Linearizable | services/order-service/src/orders/orders.service.ts:32-84 | for every interleaving of requests, performing the run's history one atomic create-or-get at a time from the initial tables yields every recorded response and exactly the final tables; the atomic operation is written out independently: a non-empty known key replays or conflicts by the user id, an unknown user is refused, anything else stores all fields of the call and the key |
| Linearizability.AnsweredOnce | services/order-service/src/orders/orders.service.ts:32-66 | in every run each request answered 201, 200, 409 or 422 is in the history exactly once with its own call and that answer; every other request at most once |
| Linearizability.RealTimeOrder | services/order-service/src/orders/orders.service.ts:32-66 | a request answered before another one was invoked precedes it in the history |
| Linearizability.RefusedMeansAbsent | services/order-service/src/users/user-directory.service.ts:27-31 | a request that ends in a 422 had no user record at any earlier point of its run, because negative answers are never cached and users only appear |
| Linearizability.EffectIsLegal | services/order-service/src/orders/orders.service.ts:38-61 | each action changes the tables exactly as the atomic operation that takes effect there, with the same response |
| OrdersInvariant.InvRun | services/order-service/src/orders/orders.service.ts:32-100 | every run keeps the invariant tying requests, tables, open transactions, events and cache together |
| OrderGuarantees.TablesAreConsistent | services/order-service/src/migrations/1700000000000-create-orders.ts:7-21 | every key is non-empty, points at one existing order, the one of a request that carried it, and no two keys at the same; every order holds the user, amount and description of exactly one request and sits under its key if that is not empty; requests answered 200, 409 or 422 left no order |
| OrderGuarantees.OneOrderPerKey | services/order-service/src/orders/orders.service.ts:74-84 | all requests with one non-empty key that are answered with an order get the same order, for the same user, and only one of them a 201 |
| OrderGuarantees.WithoutKeyNoReplay | services/order-service/src/orders/orders.service.ts:38-41 | a request without a key, or with an empty one, is never answered 200 or 409 |
| OrderGuarantees.WithoutKeyNoKey | services/order-service/src/orders/orders.service.ts:51-51 | and never stores a key |
| OrderGuarantees.EnvironmentIsFree | services/order-service/src/users/user-directory.service.ts:29-31 | in every state users may appear, cache entries may expire and requests may be lost |
| OrderGuarantees.LostRaceIsAnswered | services/order-service/src/orders/orders.service.ts:54-61 | after a unique violation both reads find their row: the request ends in the replay or 409 the stored order dictates, never in the rethrow |
| OrderGuarantees.PublishDiscipline | services/order-service/src/orders/orders.service.ts:63-65 | at most one publish per order, only for a committed order, with that order's user, and only by the request that answers 201 |
| OrderGuarantees.CacheHoldsOnlyUsers | services/order-service/src/users/user-directory.service.ts:22-31 | in every run, whatever expires and whichever writes are lost, every cached user exists |
| OrderGuarantees.RepeatReplaysIffCanonical | services/order-service/src/orders/orders.service.ts:76-79 | sending a request twice with one key replays the stored order if and only if the user id is spelled in lower case; otherwise the second answer is a 409 |
| OrderGuarantees.RepeatIsAnswered | services/order-service/src/orders/orders.service.ts:38-61 | the same in every run, with both requests concurrent with anything: replay or 409 by the spelling, or a 422 from before the order existed |
| OrderGuarantees.UpperCaseIdCannotReplay | services/order-service/src/orders/orders.service.ts:77-77 | a valid user id whose owner is refused |
| OrderGuarantees.FirstRequestCreates | services/order-service/src/orders/orders.service.ts:32-66 | a keyed request for a known user with an unused key, running alone, ends in a 201 with its rows stored |
| OrderService.OrdersService.Create | services/order-service/src/orders/orders.service.ts:32-66 | for every environment the call is a run of the transition system and returns the response recorded for it; a 201 carries the generated id and the user, amount and description of the call, whose row and key are stored; the call fails if and only if the await it ended at broke (a database fault there, a lookup reply that ends the lookup unanswered, an id that is not fresh, a key still held, a lost commit acknowledgement), so never after an acknowledged commit |
| OrderService.OrdersService.FindByKey | services/order-service/src/orders/orders.service.ts:76-84 | a known key ends the request with the replay decision on the stored order, an unknown one (first lookup only) moves it on; it fails exactly on a database fault at one of the two reads |
| OrderService.OrdersService.CheckUser | services/order-service/src/orders/orders.service.ts:43-45 | a user cached at the read goes on to the transaction without a lookup; otherwise the request proceeds, ends in a 422 with the user absent at the decisive reply, or fails exactly when that reply answers nothing; Redis never fails it |
| OrderService.OrdersService.AskCache | services/order-service/src/users/user-directory.service.ts:22-26 | a cached user is not looked up, anything else and any fault is |
| OrderService.OrdersService.FillCache | services/order-service/src/users/user-directory.service.ts:30-30 | a found user is cached unless the write is lost |
| OrderService.OrdersService.FetchExists | services/order-service/src/users/user-directory.service.ts:34-55 | every reply before the decisive one was a network error or a status of 500 or more; a 200 is found, a 404 refused, anything else fails, a network or server error only at the second attempt |
| OrderService.OrdersService.ClaimKey | services/order-service/src/orders/orders.service.ts:51-59 | the key is claimed, or the request ends in the winner's replay or 409, or fails exactly when one of its awaits broke |
| OrderService.OrdersService.Store | services/order-service/src/orders/orders.service.ts:47-61 | the transaction commits the order with the generated id, or the request is answered without one; it fails exactly when its last await broke |
| OrderService.OrdersService.PublishCreated | services/order-service/src/orders/orders.service.ts:86-100 | the committed order is always answered with a 201; the event is published with its order and user when the publish works, and nothing is published otherwise |
| Directory.FetchExists | services/order-service/src/users/user-directory.service.ts:34-55 | true exactly on a 200, false exactly on a 404, each as the first reply or after a network error or a status of 500 or more; one reply is used exactly when the first is a status below 500 |
| Directory.ReadAfter | services/order-service/src/infra/cache.service.ts:36-56 | for every history of writes, lost writes and waiting, a read sees the value of the last write that arrived while that write is younger than its time to live, and nothing when Redis fails |
| Directory.UserDirectory.Exists | services/order-service/src/users/user-directory.service.ts:21-32 | under every fault schedule the cached answer is the uncached one whenever that one answers, false always comes from a 404 of this call, the cache stays sound, and exactly a positive answer of user-service is written, under the user's key with the configured time to live |
| OrderEvent.ParseMeansCarries | services/notification-worker/src/messaging/order-created.event.ts:18-34 | the worker accepts exactly the bodies that carry an event by the message schema, and reads that event |
| OrderEvent.WhyRejected | services/notification-worker/src/messaging/order-created.event.ts:18-34 | which fault of a rejected body is reported: not JSON, not an object, the wrong type, or the first of the three ids that is missing or not a UUID |
| Uuid.UuidIsFiveGroups | services/notification-worker/src/messaging/order-created.event.ts:11-11 | UUID text is 8, 4, 4, 4 and 12 hexadecimal digits of either case, joined by hyphens |
| Uuid.CanonicalIsLowerCase | services/order-service/src/migrations/1700000000000-create-orders.ts:10-10 | the stored form has the same digits in lower case |
| OrderEvent.EncodeThenParse | services/order-service/src/orders/orders.service.ts:89-95 | what order-service publishes parses back to the same event if and only if its three ids are UUIDs |
| OrderEvent.EncodePublishes | services/order-service/src/orders/orders.service.ts:89-95 | the body has exactly the fields of the message contract, each with its own value |
| Topology.EveryHopHasOneTarget | messaging/rabbitmq/definitions/definitions.json:36-91 | publish, rejection, expiry and dead-letter publish each reach exactly one queue, and the dead-letter queue sends nowhere |
| Deaths.CounterReadsRejections | services/notification-worker/src/messaging/consumer.service.ts:35-41 | the counter is the sum of the counts of the rejections from the main queue; an absent count is zero |
| Deaths.RecordDeathAddsOne | messaging/rabbitmq/definitions/definitions.json:36-57 | from any header, one dead-lettering adds one to its own queue and reason and nothing to any other |
| Deaths.RecordDeathCounts | services/notification-worker/src/messaging/consumer.service.ts:35-41 | from any header, one dead-lettering adds one to the counter exactly when it is a rejection from the main queue |
| Deaths.HopIsOneDeath | messaging/rabbitmq/definitions/definitions.json:36-57 | a rejection is one death in the main queue, an expiry one in the retry queue |
| Deaths.CounterRefinesRejections | services/notification-worker/src/messaging/consumer.service.ts:34-41 | for every interleaving of rejections and expiries the counter is the starting count plus the rejections |
| Messages.HopCounts | services/notification-worker/src/messaging/consumer.service.ts:117-131 | a rejection counts one, an expiry nothing, both leave body and foreign headers alone, and the dead-letter copy starts from zero |
| Consumer.FirstRecordWins | services/notification-worker/src/notifications/notifications.service.ts:21-33 | for every sequence of recorded events, repetitions included: a known row never changes, every other id gets exactly the row of the first event that carries it, and no other row appears |
| Consumer.ConsumerService.DeadLetterMessage | services/notification-worker/src/messaging/consumer.service.ts:117-143 | publishes body and foreign headers without x-death, with the reason and the attempts made, and acknowledges only after the broker confirmed |
| Consumer.ConsumerService.HandleFailure | services/notification-worker/src/messaging/consumer.service.ts:93-115 | a permanent failure is dead-lettered at once with its cause, a transient one retried until the attempts are used up and then dead-lettered with their number; an unconfirmed dead letter falls back to the retry path; exactly one settlement on an open channel |
| Consumer.ConsumerService.HandleMessage | services/notification-worker/src/messaging/consumer.service.ts:79-90 | for every outcome of parsing, insert, publish and confirm: exactly one settlement, the right one, on a channel that stays open, at most one otherwise; the expected dead letter; one row at most |
| BrokerInvariant.InvRun | services/notification-worker/src/messaging/consumer.service.ts:79-143 | every run of the protocol keeps its invariant |
| BrokerGuarantees.NothingIsLost | services/notification-worker/src/messaging/consumer.service.ts:79-143 | in every run with crashes, lost confirms, retries and replays, every message that ever arrived is recorded or still held by some queue; a malformed one is always held |
| BrokerGuarantees.RowsComeFromArrivals | services/notification-worker/src/notifications/notifications.service.ts:21-33 | every row belongs to an event that arrived, with its order and user |
| BrokerGuarantees.RetryBound | services/notification-worker/src/messaging/consumer.service.ts:93-115 | a well-formed copy is rejected at most MAX_ATTEMPTS - 1 times plus its failed dead-letter publishes, a malformed one exactly as often as those, and the header counts the rejections |
| BrokerGuarantees.AccountsAreKept | services/notification-worker/src/messaging/consumer.service.ts:93-115 | every step books exactly its own rejection, as a failed dead-lettering or as a retry |
| RetryTermination.RejectionsAreBounded | services/notification-worker/src/messaging/consumer.service.ts:93-115 | the same bound counted on the actions of every run: the attempt counter grows by exactly the rejections, which are at most the remaining budget plus the dead-letterings that failed, and exactly those for a malformed message whose delivery no crash returned |
| BrokerGuarantees.RetriesUseUpTheBudget | services/notification-worker/src/messaging/consumer.service.ts:101-108 | every retry strictly decreases the remaining attempts, which stay positive |
| BrokerGuarantees.DeadLetterHeader | services/notification-worker/src/messaging/consumer.service.ts:97-131 | the dead letter keeps body and foreign headers, has an empty attempt count, names the parse error of a malformed message and the number of attempts of any other, and its x-failed-attempts lies between MAX_ATTEMPTS and MAX_ATTEMPTS plus the initial count and the failed dead-letter publishes; for a malformed message it is one more than those |
| BrokerGuarantees.ReplayRestoresBudget | scripts/replay-dlq.sh:24-30 | a replayed dead letter is ready in the main queue with all attempts, and the dead letter is still there until confirmed |
| BrokerGuarantees.HopsFollowTopology | messaging/rabbitmq/definitions/definitions.json:36-91 | the protocol's hops are the ones the broker definitions route, each recorded in the header |
| BrokerGuarantees.EnvironmentIsFree | services/notification-worker/src/messaging/consumer.service.ts:79-143 | in every state messages may arrive, deliveries may come back after a crash while their handler still inserts, and dead letters may be replayed |
| BrokerGuarantees.HandlerFollowsProtocol | services/notification-worker/src/messaging/consumer.service.ts:79-143 | the uninterrupted protocol steps of a delivery settle it, insert the row and dead-letter it exactly as the handler does |
| RetryTermination.FailingMessageIsDeadLettered | services/notification-worker/src/messaging/consumer.service.ts:79-143 | in every run, crashes and all other activity included, in which the inserts of a fresh message are never answered and its dead-letter publishes work: at most MAX_ATTEMPTS handlings, the message leaves the loop exactly with that many, dead-lettered at least once, and once only unless a crash returned its delivery |
| RetryTermination.DeadLetterSaysMaxAttempts | services/notification-worker/src/messaging/consumer.service.ts:101-131 | in every such run a dead letter is published only in handling number MAX_ATTEMPTS, with x-failed-attempts equal to MAX_ATTEMPTS and an empty attempt count |
| RetryTermination.AnsweredMessageIsStored | services/notification-worker/src/messaging/consumer.service.ts:79-90 | in every run in which an insert of the message is answered and its delivery is not returned by a crash: the row is stored, at most MAX_ATTEMPTS handlings, never a dead letter |
| BrokerGuarantees.LifeOfAMessage | services/notification-worker/src/messaging/consumer.service.ts:93-143 | such runs exist for every number of failures k: left alone, the message is recorded after k failures if k < MAX_ATTEMPTS and dead-lettered after MAX_ATTEMPTS handlings otherwise |
| Pipeline.AtMostOneNotificationPerOrder | services/notification-worker/src/notifications/notifications.service.ts:19-33 | in every run of the whole pipeline each notification belongs to a committed order with the same user and no order has two |
| Pipeline.BothSidesAreFree | services/order-service/src/orders/orders.service.ts:86-100 | the composition takes every step of either side in every state, and a publish may reach the main queue or be lost |
| Pipeline.RowBelongsToOrder | services/order-service/src/orders/orders.service.ts:86-95 | the event id, order and user of a row are those of one publish of order-service |
| Pipeline.PublishedIsKept | services/notification-worker/src/messaging/consumer.service.ts:79-143 | every published event that reached the main queue is recorded or still held, and its order exists |
| Pipeline.PublishedIsFromOrders | services/order-service/src/orders/orders.service.ts:87-95 | the published body parses to the event remembered for the request and carries the stored order's id, the user, amount, description and correlation id of the call |
| Publisher.EventPublisher.GetChannel | services/order-service/src/infra/event-publisher.service.ts:54-60 | the stored channel, or one more waiter on the only open() in progress; a new open() starts only when there is none |
| Publisher.EventPublisher.Settle | services/order-service/src/infra/event-publisher.service.ts:56-59 | everyone who waited gets the one result and the flight is over |
| Publisher.EventPublisher.ConnectSucceeds | services/order-service/src/infra/event-publisher.service.ts:63-70 | open() goes on to create a channel on the new connection |
| Publisher.EventPublisher.ConnectFails | services/order-service/src/infra/event-publisher.service.ts:90-100 | all waiters get the failure; a timed-out attempt stays pending |
| Publisher.EventPublisher.LateConnect | services/order-service/src/infra/event-publisher.service.ts:96-99 | a connection that arrives late is closed and never stored |
| Publisher.EventPublisher.ChannelCreated | services/order-service/src/infra/event-publisher.service.ts:72-79 | connection and channel are stored together and handed to all waiters; a live connection stored before is forgotten, no other; the stored channel is dead exactly when its connection's close was reported first |
| Publisher.EventPublisher.ChannelFails | services/order-service/src/infra/event-publisher.service.ts:80-83 | the connection without a channel is closed |
| Publisher.EventPublisher.AbandonReturns | services/order-service/src/infra/event-publisher.service.ts:80-83 | all waiters get the failure once that close has returned |
| Publisher.EventPublisher.OnConnectionClosed | services/order-service/src/infra/event-publisher.service.ts:66-70 | both fields are cleared, whichever connection they belong to; a live connection stored there is forgotten exactly when it is another one |
| Publisher.EventPublisher.OnChannelClosed | services/order-service/src/infra/event-publisher.service.ts:74-76 | only the channel's own entry is cleared, and no connection is forgotten yet |
| Publisher.EventPublisher.Destroy | services/order-service/src/infra/event-publisher.service.ts:102-108 | the stored connection is closed; forgotten ones are not |
| Publisher.Drive | services/order-service/src/infra/event-publisher.service.ts:54-84 | under every order of calls, replies and close events, a channel reply after its connection's close included: at most one open() in progress, callers that joined the same one get the same channel or the same failure, a stored channel belongs to the stored connection, that connection has been reported closed exactly when the channel was handed over too late, and a live connection is forgotten exactly when it was dropped by one of the two steps above |
| Publisher.LeaksAConnection | services/order-service/src/infra/event-publisher.service.ts:66-78 | a channel that dies alone leads to a second connection while the first stays open and unreferenced |
| Publisher.StaleCloseForgets | services/order-service/src/infra/event-publisher.service.ts:66-70 | the later close of that first connection clears and forgets the second |
| Publisher.StoresADeadChannel | services/order-service/src/infra/event-publisher.service.ts:66-79 | a connection that closes before its channel reply is handled stays stored, and the next publish gets its dead channel instead of reconnecting |
| Session.ConsumerSession.IsConnected | services/notification-worker/src/messaging/consumer.service.ts:70-72 | ready exactly while consuming and not stopping |
| Session.ConsumerSession.ConnectSucceeds | services/notification-worker/src/messaging/consumer.service.ts:164-169 | the session owns the new connection |
| Session.ConsumerSession.ConnectFails | services/notification-worker/src/messaging/consumer.service.ts:151-154 | the loop backs off, or ends when stopping |
| Session.ConsumerSession.LateConnect | services/notification-worker/src/messaging/consumer.service.ts:207-210 | a late connection is closed in whatever phase the loop is |
| Session.ConsumerSession.SetupSucceeds | services/notification-worker/src/messaging/consumer.service.ts:176-184 | the three fields are set together |
| Session.ConsumerSession.SessionEnds | services/notification-worker/src/messaging/consumer.service.ts:186-194 | the three fields are cleared and the connection's close is requested, on success and on failure |
| Session.ConsumerSession.BeginShutdown | services/notification-worker/src/messaging/consumer.service.ts:222-223 | no new session starts and a sleeping loop ends |
| Session.ConsumerSession.CloseAfterDrain | services/notification-worker/src/messaging/consumer.service.ts:229-231 | after the drain the connection consumed by then, if any, is closed |
| Session.Drive | services/notification-worker/src/messaging/consumer.service.ts:145-211 | for every sequence of events each established connection is owned by the session or has had its close requested, the three fields are all set or all unset; once shutdown began no attempt starts, and a session that was not connecting or being set up by then never begins to consume |
| Session.StartingGoesOn | services/notification-worker/src/messaging/consumer.service.ts:164-184 | conversely, every session that was connecting or being set up when shutdown began can still begin to consume |
| Session.ConsumesWhileStopping | services/notification-worker/src/messaging/consumer.service.ts:164-231 | and it may do so after shutdown looked for a connection to close, from either phase, with nobody asking for its close |
| Timing.Run | services/notification-worker/src/messaging/consumer.service.ts:145-162 | the delay after a session is min(1000 * 2^k, 10000) for k short sessions in a row |
| Timing.DelayBounds | services/notification-worker/src/messaging/consumer.service.ts:155-156 | delays lie between 1000 and 10000 ms, never shrink with the streak, and are capped exactly from the fourth short session on |
| Timing.SlowestExhausts | services/notification-worker/src/messaging/consumer.service.ts:229-229 | the drain runs into its bound exactly when some message in flight outlasts it |
| Timing.OnModuleDestroy | services/notification-worker/src/messaging/consumer.service.ts:221-239 | the sum of four waits, each the duration of what is awaited capped at 1000, 5000, 1000 and 1000 ms, the drain that of the slowest message in flight; at most 8000 ms, and 8000 exactly when all of them run into their bounds |
| Timing.ShutDown | services/notification-worker/src/telemetry.ts:24-82 | the first stage plus the flush, capped at 2000 ms: at most 10000 ms, and strictly less unless every wait of both runs into its bound |
| Timing.GracePeriodIsReached | services/notification-worker/src/messaging/consumer.service.ts:12-20 | a situation that uses the whole grace period |
| DependencyGate.ProblemOf | security/dependency-scan/gate.mjs:43-54 | reports nothing exactly for exceptions that are complete, dated, limited to 90 days, unexpired and properly scoped, and otherwise the first violated rule |
| DependencyGate.CheckExceptions | security/dependency-scan/gate.mjs:38-56 | the valid list holds exactly the exceptions in force, and there are no problems exactly when that is all of them |
| DependencyGate.LastSegmentSplits | security/dependency-scan/gate.mjs:24-24 | the id of an advisory is what follows the last slash of its URL |
| DependencyGate.Advisories | security/dependency-scan/gate.mjs:17-35 | the map of all advisories of the report, filed in order; an unusable report is an error |
| DependencyGate.FiledIsLast | security/dependency-scan/gate.mjs:25-31 | under every key the map holds the last entry with that key |
| DependencyGate.FiledComesFrom | security/dependency-scan/gate.mjs:20-34 | and nothing else |
| DependencyGate.Evaluate | security/dependency-scan/gate.mjs:58-69 | passes exactly when the report is usable, all exceptions are in force, and every last entry of a key that is high or critical and fixable has an exception with its id and package for all services or for this one |
| DependencyGate.VerdictIsTheRule | security/dependency-scan/gate.mjs:1-34 | the verdict is the documented rule for every list of exceptions if and only if every serious fixable advisory is still serious and fixable, under the same name, in the last entry with its key, or the report fails whatever the exceptions are |
| DependencyGate.HidingDefeatsTheRule | security/dependency-scan/gate.mjs:20-34 | on any other report some exceptions make the gate pass against the rule |
| DependencyGate.AgreementHidesNothing | security/dependency-scan/gate.mjs:16-31 | reports whose ids have no space and whose repetitions agree on seriousness hide nothing, in any order |
| DependencyGate.OrderDoesNotMatter | security/dependency-scan/gate.mjs:58-69 | under that condition the order of packages, advisories and exceptions does not change the verdict |
| DependencyGate.ExceptionsOnlyHelp | security/dependency-scan/gate.mjs:60-68 | adding an exception in force never turns a pass into a failure |
| DependencyGate.DisagreementHidesAnAdvisory | security/dependency-scan/gate.mjs:25-31 | a report on which the verdict and the rule differ |
| ImageGate.LinesJoinToText | security/image-scan/gate.mjs:21-21 | the lines joined with line breaks are the text and contain none |
| ImageGate.TrimSplits | security/image-scan/gate.mjs:22-24 | trimming removes exactly the white space at both ends |
| ImageGate.SpacesAreListed | security/image-scan/gate.mjs:22-25 | white space is that of ECMAScript |
| ImageGate.FirstWordEndsAtSpace | security/image-scan/gate.mjs:25-25 | the id of an entry is the text up to the first white space |
| ImageGate.Parse | security/image-scan/gate.mjs:18-29 | the one-variable scan pairs every entry line with the comment on the line directly above, or with none |
| ImageGate.ExpAtIsThePattern | security/image-scan/gate.mjs:14-14 | the match test is the pattern read character by character, word boundaries included |
| ImageGate.FindExpIsLeftmost | security/image-scan/gate.mjs:14-25 | the date taken from a line is that of the leftmost match of the pattern |
| ImageGate.FindExpFindsAMatch | security/image-scan/gate.mjs:14-25 | and none is taken without a match |
| ImageGate.CheckEntries | security/image-scan/gate.mjs:31-42 | no problems exactly when no entry has one |
| ImageGate.Evaluate | security/image-scan/gate.mjs:44-48 | passes exactly when every entry line of the text has a reason directly above and a date at most 90 days out, or a reason and text that only looks like a date |
| ImageGate.WhatIsReported | security/image-scan/gate.mjs:36-39 | a missing or empty reason is reported first, then a line in which the pattern matches nowhere |
| ImageGate.ReportedUnlessDocumented | security/image-scan/gate.mjs:34-40 | an entry line goes unreported exactly when it meets the documented rule or carries a reasoned text that is not a date |
| ImageGate.GateIsTheRule | security/image-scan/gate.mjs:1-7 | with real dates the gate passes exactly the files in which every entry meets the documented rule |
| ImageGate.FakeDatePasses | security/image-scan/gate.mjs:38-39 | an entry dated in month 13 passes |

## Left out

- api-gateway (proxying, rate limiting) and token verification: the state and the cryptography live in libraries.
- Configuration checks, DTO validation, controllers and health endpoints: short checks; their guarantees appear as
  conditions on requests (the user id is a UUID).
- The static-analysis and commit-message gates, Helm, Kubernetes, Compose, dashboards and alert rules.
- JSON text, SQL text and regular expressions other than the two patterns used by the modelled functions.
- The healthy flag of the cache service, metrics, log lines and report texts: they do not influence any answer.
- Column limits of the database (amount precision, key and description length) and the created_at columns.
- The promises in flight that shutdown collects: only their remaining durations are modelled.
- A header count that is not a number: the broker writes only counts.
- The order of the gates' report rows and problem messages.
- Liveness: nothing says that an expired message is delivered, that a blocked insert ends or that a replay is started.
- Timing.Run: lists the scheduled delays; a wake-up during shutdown may cut the last one short.
- Publisher.Drive: the end of `open()` and its `finally` are one step. Other microtasks can run between them; one that
  joins there gets the same result, and the effects of the others can be reordered before or after the step.
- Session.ConsumerSession.BeginShutdown: waking the loop and the loop's exit are one step.
- Linearizability.Linearizable: says nothing about the values in a 5xx, whose effect the caller cannot know.
