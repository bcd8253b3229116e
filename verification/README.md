# Topic-routed Kafka consumer runner, modelled in Dafny

This project models the core of a small Go library that consumes Kafka through a consumer group
and routes each message to a handler chosen by its topic.

- **The dispatcher** (`KafkaHandler`, module `PubSub`, `handler.dfy`) holds a table from topic
  to `Handler`. A handler is an opaque identity plus an `IsSync` flag. `Register` forwards the
  topic to the subscriber and then sets the table entry, so the last registration for a topic
  wins. `Run` starts the subscriber and returns its error if it fails. Otherwise its dispatch
  loop takes the messages of the subscriber's channel in order and does one of three things
  with each: it drops the message when the topic has no handler, calls the handler inline when
  the handler is synchronous, and spawns it otherwise. The loop is modelled as a method that
  appends one event per message to a trace: `Drop`, `SyncConsume` or `AsyncSpawn`.
- **The subscriber** (`SrmSubscriber`, module `Kafka`, `consumer.dfy`) keeps an append-only list
  of topics. Its `Run` creates a consumer group, which may fail. It then snapshots the topics
  into a session group (`SubscriberGroup`) and starts the rebalance retry loop.
- **The retry loop** calls `Consume` generation after generation. It leaves only when it finds
  the context cancelled, either before a `Consume` or after one returns. A `Consume` error is
  only logged. Each generation's `Setup` closes the `ready` channel, and the loop makes a new
  one after every generation. The caller of `Run` waits on the first `ready` channel.
- **Claims and messages.** `ConsumeClaim` forwards a claim's records in order, each wrapped
  with the claim's session. The wrapper exposes `Topic`, `Key`, `Value` and `Timestamp`;
  `Timestamp` is absent for the zero instant. Its `Done` marks the record in its own session.

## How the environment is represented

The Kafka client library (sarama) is represented by oracles in the `Sarama` and `Kafka` modules:

- `ConsumerGroupSession` keeps a log of its `MarkMessage` calls.
- `ConsumerGroup.Consume` runs one `Generation` chosen by the environment. A generation either
  fails to join, or sets up a session (calling `Setup`) and delivers its claims through
  `ConsumeClaim`.
- Whether group creation fails is a parameter: `creationErr`.
- The course of the retry loop is a parameter `script: seq<Turn>`. Each turn says one of two
  things. Either the context was found cancelled before `Consume`, or `Consume` ran a
  generation, returned an error or nil, and the context was or was not cancelled by then.
- Channels are sequences: a channel is everything sent on it, plus whether it was closed.
- Goroutines are not modelled. A spawned handler is an `AsyncSpawn` event.
- The dispatch loop runs over the subscriber's whole channel after `Run` has started it.

Go's `context.Context`, `error`, `time.Time` and byte slices are in module `Go` (`go.dfy`).
`scenarios.dfy` puts whole runs together from the contracts alone.

### Behaviour of the code worth knowing

- `RegisterTopic` appends. A topic registered twice is listed twice, so registration is not
  idempotent.
- `srmSubscriberGroup.Run` waits on the first `ready` channel only
  (saramalib/pubsub/kafka/consumer.go:126, 145, 149). When the first `Consume` does not set up a
  session, that channel is never closed and `Run` never returns, even if a later generation
  succeeds. This happens when the join fails, and also when the context is cancelled before the
  first `Consume`. The model returns `Blocked` from the subscriber and `Hangs` from the runner
  in that case (`Kafka.FailedFirstJoinBlocks`, `Kafka.SubscriberGroup.Run`).
- That the caller waits on the first `ready` channel rests on a data race. The loop goroutine
  writes `sgh.ready` (saramalib/pubsub/kafka/consumer.go:145) while the caller reads it without
  synchronisation (:149). The caller normally reads it long before the first `Consume` returns,
  so the model takes the first channel. A caller scheduled late could read a later channel.
- saramalib/main.go calls `NewKafkaConsumeRunner(sub)` and `runner.Run(mainCtx)`. Neither call
  matches the signatures in saramalib/pubsub/handler.go. The model follows handler.go.

## Model

| member | source | states |
|---|---|---|
| `Kafka.SubscriberMessage.Timestamp` | saramalib/pubsub/kafka/consumer.go:170-176 | the timestamp is absent exactly when the record's timestamp is the zero instant, and otherwise equals it |
| `Kafka.TimestampLosesNothing` | saramalib/pubsub/kafka/consumer.go:170-176 | reading an absent timestamp back as the zero instant recovers the record's timestamp, so nothing is lost |
| `Kafka.SubscriberMessage.Done` | saramalib/pubsub/kafka/consumer.go:166-168 | appends exactly (this record, metadata) to the mark log of the message's own session; no other session is touched |
| `Sarama.ConsumerGroupSession.MarkMessage` | saramalib/pubsub/kafka/consumer.go:167 | the library call behind `Done`: one mark is appended to this session's log |
| `Kafka.Wrap` | saramalib/pubsub/kafka/consumer.go:53-58 | one wrapped message per record, in record order, each carrying that record and the given session |
| `Kafka.WrapForwardsFields` | saramalib/pubsub/kafka/consumer.go:154-164 | a wrapped message's `Topic`, `Key` and `Value` are its record's fields unchanged, its timestamp reads back to the record's, and the records can be recovered from the wrapped stream |
| `Kafka.GroupHandler.Setup` | saramalib/pubsub/kafka/consumer.go:43-46 | needs an open ready channel, because closing a closed channel panics; closes it and returns nil |
| `Kafka.GroupHandler.ConsumeClaim` | saramalib/pubsub/kafka/consumer.go:52-61 | sends every record of the claim, in claim order, wrapped with the claim's session, after what was already sent, and returns nil |
| `Kafka.ConsumerGroup.Consume` | saramalib/pubsub/kafka/consumer.go:137 | the library call: logs the topic list it was given; calls `Setup` exactly when the generation joins, so the ready channel must be open only then; forwards the generation's claims in order with a fresh session; returns the environment's error |
| `Kafka.ConsumerGroup.Close` | saramalib/pubsub/kafka/consumer.go:119 | marks the group closed and returns the library's error |
| `Kafka.ExitsIffCancelled` | saramalib/pubsub/kafka/consumer.go:131-143 | the loop exits exactly when some turn finds the context cancelled, before a `Consume` or after one returns |
| `Kafka.TakenStopsAtCancellation` | saramalib/pubsub/kafka/consumer.go:131-147 | the loop runs a prefix of the script. Without cancellation it runs every turn; otherwise it stops at the first turn that observes cancellation, and no earlier turn ends it |
| `Kafka.TakenAfterExit` | saramalib/pubsub/kafka/consumer.go:133-143 | once the loop has returned, later turns change neither whether it exited nor what it ran |
| `Kafka.ErrorsDoNotEndLoop` | saramalib/pubsub/kafka/consumer.go:137-143 | two scripts that differ only in the errors `Consume` returns exit alike, run the same number of turns, call `Consume` equally often and deliver the same records |
| `Kafka.RejoinsUntilCancelled` | saramalib/pubsub/kafka/consumer.go:129-147 | while no turn observes cancellation, the loop rejoins for every turn and never exits, whatever `Consume` returns |
| `Kafka.SentRecords` | saramalib/pubsub/kafka/consumer.go:131-146 | underneath the messages the loop sends, each wrapped with its generation's session, are exactly the records of the generations it ran, in order |
| `Kafka.FailedFirstJoinBlocks` | saramalib/pubsub/kafka/consumer.go:122-152 | for every script whose first generation fails to join without cancellation, the caller is not released whatever follows, and the loop goes on, exiting exactly when the rest of the script observes cancellation |
| `Kafka.SubscriberGroup.Pass` | saramalib/pubsub/kafka/consumer.go:132-146 | one loop pass: it ends the loop exactly on observed cancellation. It calls `Consume` once with the snapshot topics unless cancelled first, and then appends the generation's records wrapped with that generation's new session (nothing when cancelled first). It closes the pass's ready channel exactly when the generation joins. A pass that does not end installs a fresh, open ready channel |
| `Kafka.SubscriberGroup.Run` | saramalib/pubsub/kafka/consumer.go:122-152 | the caller is released exactly when the first generation sets up a session. The channel is closed exactly when the loop exits. It carries, in order, the records of the generations the loop ran, each wrapped with the session of its own generation; these sessions are new and pairwise distinct. `Consume` is called once per generation, always with the snapshot topics. No ready channel is closed twice (each `Setup` call's precondition is discharged) |
| `Kafka.SrmSubscriber.LoadDefaultSubscriber` | saramalib/pubsub/kafka/consumer.go:63-75 | default subscriber: the local broker, no topics, one worker, Kafka version 2.2.1.0, initial offset oldest, errors returned, 30-second session timeout |
| `Kafka.SrmSubscriber.NewSrmSubscriber` | saramalib/pubsub/kafka/consumer.go:77-94 | a fresh subscriber with the given brokers and group id, empty topics, one worker and the default configuration (initial offset oldest) |
| `Kafka.SrmSubscriber.RegisterTopic` | saramalib/pubsub/kafka/consumer.go:96-98 | appends the topic at the end; earlier entries stay and duplicates are kept |
| `Kafka.SrmSubscriber.Run` | saramalib/pubsub/kafka/consumer.go:100-116 | derives the cancellable context. If group creation fails, it returns that error, no channel, and leaves the session group as it was. Otherwise it installs a session group holding the topics registered so far, with `Consume` always called on them, and returns the channel or blocks as `SubscriberGroup.Run` says; the channel's messages carry the session of the generation that read them, and these sessions are new and pairwise distinct |
| `Kafka.SrmSubscriber.Close` | saramalib/pubsub/kafka/consumer.go:118-120 | needs a session group (one installed by a successful `Run`); closes its consumer group and returns the library's error |
| `PubSub.Route` | saramalib/pubsub/handler.go:44-53 | a message is dropped exactly when its topic has no handler; otherwise it goes to that topic's handler, inline exactly when the handler is synchronous and spawned otherwise |
| `PubSub.DispatchOnePerMessage` | saramalib/pubsub/handler.go:43-54 | the loop produces exactly one event per message, in stream order, each given by the routing rule |
| `PubSub.RegisteredTopicInOrder` | saramalib/pubsub/handler.go:43-53 | for a topic with a handler, that topic's handler receives exactly the messages on that topic, each once and in stream order (a handler shared by several topics is counted per topic) |
| `PubSub.UnregisteredTopicNeverInvoked` | saramalib/pubsub/handler.go:44-47 | a topic without a handler never reaches any handler, whichever handler is asked about |
| `PubSub.UnknownTopicsDropped` | saramalib/pubsub/handler.go:44-47 | the messages dropped are exactly those whose topic has no handler, in order |
| `PubSub.KafkaHandler.NewKafkaConsumeRunner` | saramalib/pubsub/handler.go:20-26 | a new runner keeps the given context and subscriber and starts with an empty topic table |
| `PubSub.KafkaHandler.Register` | saramalib/pubsub/handler.go:28-34 | appends the topic to the subscriber's topics exactly once. It sets the topic's handler, overwriting any earlier one; every other entry is unchanged and no entry is removed |
| `PubSub.KafkaHandler.Dispatch` | saramalib/pubsub/handler.go:42-55 | the trace grows by exactly the dispatch trace of the channel's messages under the current table |
| `PubSub.KafkaHandler.Run` | saramalib/pubsub/handler.go:36-58 | runs the subscriber on the runner's context. A subscriber error is returned unchanged with nothing dispatched. If the subscriber never returns, neither does `Run`. Otherwise it returns nil and dispatches exactly the messages sent: the records of the generations the loop ran, each with its own generation's session, the sessions new and pairwise distinct. A failed creation leaves the subscriber's session group as it was; otherwise a new one holding the subscriber's topics is installed |
| `Scenarios.EndToEnd` | saramalib/pubsub/handler.go:28-58 | "a" has a synchronous handler, "b" an asynchronous one and "c" none; records a, b, a, c arrive. The result is: inline, spawned, inline in order, then a drop, and `Run` returns nil |
| `Scenarios.LateRegistrationNotSeen` | saramalib/pubsub/kafka/consumer.go:96-115 | a topic registered after `Run` is in the subscriber's list, but the running session group still holds the topic list it was given at `Run`, and `Consume` was called with that list only |

## Left out

- Concurrency is not modelled. This covers the goroutines at saramalib/pubsub/handler.go:42
  and :52 and saramalib/pubsub/kafka/consumer.go:129, and the mutex at
  saramalib/pubsub/handler.go:29-30.
- The dispatch loop's table reads race with `Register` (saramalib/pubsub/handler.go:44). The
  model's loop sees the table as it is when `Run` is called.
- PubSub.KafkaHandler.Register: that the subscriber is told before the table is written is not
  stated, because the order cannot be observed without concurrency.
- PubSub.KafkaHandler.Run: in the source, `Run` returns nil at once while the loop goes on in
  the background. The model returns after dispatching what the channel delivered.
- Unbuffered channel sends and the back-pressure they give are not modelled. A channel is the
  history of what was sent.
- Kafka.SubscriberGroup.Run: when the caller is never released, the source's later sends
  would block forever with no reader. The model still lets later generations of the script run
  and records their records and `Consume` calls.
- Kafka.FailedFirstJoinBlocks: for the same reason, a later generation that delivers a record
  would block the source's loop on that send, so it would not go on to observe cancellation.
  The lemma describes the loop as if every send completed.
- Kafka.ConsumerGroup.Consume: sarama runs `ConsumeClaim` for the claims of a generation
  concurrently, so records of different partitions may interleave. The model forwards claim
  after claim.
- The retry loop is modelled over a finite script. When the script runs out before
  cancellation, the loop is still running and the channel is still open; the source goes on
  with further generations.
- The moment of cancellation is part of the script. The `cancelFn` stored by `SrmSubscriber.Run`
  is never called in the source and is not modelled; the derived context is kept as a value.
- What a handler's `Consume` does is not modelled: handlers are opaque identities. So whether
  a handler calls `Done` is not modelled either.
- The `Cleanup` callback (saramalib/pubsub/kafka/consumer.go:48-50) returns nil and does nothing,
  so it is not modelled.
- Logging through zap is not modelled.
- Of sarama's configuration, only the four settings the subscriber changes are modelled. The
  library's other defaults are not.
- saramalib/pubsub/kafka/provider.go, the publisher, is not part of this model. It passes
  through to sarama's synchronous producer.
- saramalib/main.go and consumer/main.go are process bootstrap and demo code; they are not
  part of this model.
- The interfaces of saramalib/pubsub/pubsub.go become concrete types. The runner holds the one
  `Subscriber` there is, `SrmSubscriber`. `SubscriberMessage` is the wrapper datatype. There is
  no `Publisher`.
- A nil byte slice and an empty one are not told apart.
- PubSub.KafkaHandler.Register: registering a nil handler is not modelled; a `Handler` is
  always a value. In the source a nil handler is stored, and the first message on its topic
  panics when `IsSync` is called on it (saramalib/pubsub/handler.go:49).
