# go-whack-a-rabbit: a verified model of the load engine

go-whack-a-rabbit is a load harness for a RabbitMQ broker. A publisher creates a queue
under a freshly generated name, binds it to an exchange, and publishes a configured
number of fixed-size messages to it, waiting for each confirmation. A consumer drains a
named queue up to a message count and gives up if nothing arrives in its idle window.
Runners fan a load out over many publishers or consumers. A serverless handler runs one
publisher for one request.

This project models that engine in Dafny and proves what its code promises.

- **Broker calls.** Every broker call is an abstract outcome: `Ok` or `Fail(error)`.
  The answers come in as parameters. Each publisher and consumer keeps a ghost `trace`
  of the calls it issued, with the arguments the code passes. This states the ordering
  and release properties ("closes what it opened, channel first") over that trace.
- **Values and classes.** Each Go type that is updated in place is a Dafny `class`:
  `Publisher`, `Consumer`, the two stats types, the timer and the two runners. The
  classes keep the Go fields the control logic reads, with these changes:
  - The contexts and the stats' `rate` are dropped.
  - The `conn`/`chann` pointers become `hasConn`/`hasChann` flags, and the runner's
    `cancel` function becomes `hasCancel`/`canceled`.
  - Ghost `trace`s record the broker calls.
  - The timer gains `waiting` and a ghost `sent` count.

  Each method is proved against a pure function on a state value (`Asserted`,
  `Published`, `Consumed`, `Closed`, `CleanedUp`, `Handled`). The properties are lemmas
  about those functions.
- **The consume loop.** The loop reads a finite sequence of events: `Timeout` (the idle
  timer fired), `Cancel` (the consumer's context is done) and `Delivery`. If the events
  run out before the loop ends, the call is still blocked. `Consume` then reports
  `returned == false`.
- **Time.** Time is an abstract integer clock. A `Window(start, stop)` gives the two
  readings a worker's stats take.

Files: `common.dfy` (Option/Result), `amqp.dfy` (calls, outcomes, errors), `stats.dfy`,
`publisher.dfy`, `consumer.dfy`, `publisher_runner.dfy`, `consumer_runner.dfy`,
`handler.dfy`.

Behaviour of the code a reader might not expect, which the model keeps:

- A nacked confirmation is logged and the message is still counted
  (rmq/publisher.go:101-104).
- The consumer runner accepts an empty list of queue names. Its `Run` checks only the
  message count (runner/consumer.go:35-45, 59-61).
- The idle timer fires at most once per `Consume` call. After the first window the
  loop has no idle guard (rmq/consumer.go:145-157). The model keeps this single-shot
  behaviour; `IdleOnlyInFirstWindow` states its consequence.
- `Close` never resets `conn`/`chann`. A publisher that asserts its queue a second
  time therefore also closes its earlier channel when the new channel request fails.

## Model

| member | source | states |
|---|---|---|
| Amqp.ReleaseClosesWhatIsOpen | rmq/publisher.go:111-118 | `Close` closes the channel iff one was opened and the connection iff one was opened, each once, the channel first |
| Stats.IncrementsCount | rmq/publishStats.go:18-27 | `n` increments raise the count by exactly `n` and change no other field; after creation the count is `n` |
| Stats.PublishStats.constructor | rmq/publishStats.go:18-22 | a new record carries the queue name and a zero count |
| Stats.PublishStats.IncrementMessage | rmq/publishStats.go:25-27 | the count goes up by exactly one; only the count may change |
| Stats.PublishStats.Start | rmq/publishStats.go:30-32 | only `start` changes, to the clock reading |
| Stats.PublishStats.Stop | rmq/publishStats.go:35-37 | only `duration` changes, to the reading minus `start` |
| Stats.ConsumeStats.constructor | rmq/consumerStats.go:18-22 | a new record carries the queue name and a zero count |
| Stats.ConsumeStats.IncrementMessage | rmq/consumerStats.go:25-27 | the count goes up by exactly one; only the count may change |
| Stats.ConsumeStats.Start | rmq/consumerStats.go:30-32 | only `start` changes, to the clock reading |
| Stats.ConsumeStats.Stop | rmq/consumerStats.go:35-37 | only `duration` changes, to the reading minus `start` |
| RmqPublisher.QueueNameFrom | rmq/publisher.go:39-40 | the queue name is as long as the UUID text, starts with `zzzzzzzz-bang`, and agrees with the UUID past the prefix |
| RmqPublisher.QueueNamesCollideOnlyOnSameTail | rmq/publisher.go:39-40 | two generated names are equal iff the UUIDs agree on their last 23 characters |
| RmqPublisher.Decimal | rmq/publisher.go:93 | the decimal text of an index is non-empty, with at least two digits from 10 on |
| RmqPublisher.DecimalIsDigits | rmq/publisher.go:93 | the text of an index consists of decimal digits only |
| RmqPublisher.DigitsValue | rmq/publisher.go:93 | the number a digit text denotes, most significant digit first |
| RmqPublisher.DecimalDenotes | rmq/publisher.go:93 | the text printed for index `i` denotes `i` |
| RmqPublisher.MessageId | rmq/publisher.go:93 | the id of message `i` is the queue name, a dash and the decimal text of `i` |
| RmqPublisher.DecimalInjective | rmq/publisher.go:93 | distinct indexes print as distinct decimal texts (a corollary of `DecimalDenotes`) |
| RmqPublisher.MessageIdsDistinct | rmq/publisher.go:93 | the messages of one publisher carry pairwise distinct ids `<queue>-<i>` |
| RmqPublisher.Filler | rmq/publisher.go:78 | the body has exactly `size` bytes, all `'s'` |
| RmqPublisher.PublishFrom | rmq/publisher.go:88-105 | the send loop from iteration `i`: publish message `i`, stop with the error on a transport failure, otherwise count the message whether acked or nacked and go on, up to `number` |
| RmqPublisher.AllConfirmedPublishesAll | rmq/publisher.go:88-107 | with no transport error the loop returns no error and counts `number` messages, acked or nacked |
| RmqPublisher.TransportErrorStops | rmq/publisher.go:96-98 | a transport error at iteration `k` returns at once, with `k` messages counted, that error, and `k + 1` publish calls |
| RmqPublisher.PublishCallsInOrder | rmq/publisher.go:89-96 | publish call `j` sends message `j`: persistent, type "Test", id `<queue>-<j>`, the same body, to the exchange under the queue name; calls = count, plus one on error |
| RmqPublisher.CleanupRemovesWhatExists | rmq/publisher.go:121-129 | `CloseAndCleanUp` unbinds iff the queue was bound, deletes iff it has a name, each exactly once and nothing else, unbinds first, then closes, changing no field but the trace |
| RmqPublisher.Closed | rmq/publisher.go:111-118 | `Close` on a state: the release calls are appended and no field changes |
| RmqPublisher.CleanedUp | rmq/publisher.go:121-129 | `CloseAndCleanUp` on a state: unbind if bound, delete if named, then `Close` |
| RmqPublisher.Asserted | rmq/publisher.go:34-74 | `AssertQueue` on a state: the name is generated, then dial, channel, confirm, declare and bind run in turn; each field is set after its step; the first failure returns its error, closing once a connection exists |
| RmqPublisher.AssertedResult | rmq/publisher.go:34-74 | an error iff a step failed, namely the first failing step's error, with an empty name; `queueName` is set only after the declare succeeds, `binded` only after the bind does; the bookkeeping invariant is kept |
| RmqPublisher.AssertedTrace | rmq/publisher.go:35-53 | a name failure issues no call; a dial failure issues only the dial and changes no field; a channel failure closes; on success the five setup calls are issued in order |
| RmqPublisher.AssertedClosesAfterFailure | rmq/publisher.go:55-70 | a confirm, declare or bind failure issues the setup calls up to the failing one, then closes the channel and then the connection |
| RmqPublisher.AssertedFresh | rmq/publisher.go:34-74 | on a new publisher, success leaves it ready under the generated name; failure returns the first failing step's error |
| RmqPublisher.Published | rmq/publisher.go:77-108 | `Publish` on a state: register for confirmations, run the send loop, and time stats counting the loop's messages over the clock window |
| RmqPublisher.Send | rmq/publisher.go:88-105 | the send loop issues, counts and returns what the loop specification says |
| RmqPublisher.Publisher.constructor | rmq/publisher.go:25-31 | a new publisher has nothing open and no queue |
| RmqPublisher.Publisher.AssertQueue | rmq/publisher.go:34-74 | the fields, calls, name and error are those of `Asserted`, and the bookkeeping invariant is kept |
| RmqPublisher.Publisher.Publish | rmq/publisher.go:77-108 | registers for confirmations, then runs the send loop; fresh stats count the loop's messages over the clock window |
| RmqPublisher.Publisher.Close | rmq/publisher.go:111-118 | the new state is `Closed` of the old one |
| RmqPublisher.Publisher.CloseAndCleanUp | rmq/publisher.go:121-129 | the new state is `CleanedUp` of the old one |
| RmqPublisher.Publisher.QueueName | rmq/publisher.go:132-134 | the name is empty or a generated, prefixed 36-character name |
| RunnerPublisher.FirstFailure | runner/publisher.go:40-47 | the index of the first failing setup: all before it succeed, and it fails unless it is the total |
| RunnerPublisher.Names | runner/publisher.go:39-53 | the names the first `n` setups generated, in order; there are `n` of them |
| RunnerPublisher.NamesAt | runner/publisher.go:49 | the `j`-th returned name is the one the `j`-th setup generated |
| RunnerPublisher.SetUpOne | runner/publisher.go:41-47 | a new publisher is ready under its generated name, or the first failing step's error comes back |
| RunnerPublisher.SetUpEach | runner/publisher.go:39-53 | keeps the fresh, distinct publishers before the first failure, each ready, with their names in creation order |
| RunnerPublisher.PublisherRunner.constructor | runner/publisher.go:22-31 | stores the settings; no publishers |
| RunnerPublisher.PublisherRunner.SetUpPublishers | runner/publisher.go:34-54 | `totalRunners < 1` fails with no names and no publishers; otherwise exactly `k` publishers are kept for the first failure `k`, with `totalRunners` names on success, else no names, the error, and every kept publisher cleaned up |
| RunnerPublisher.PublisherRunner.Run | runner/publisher.go:57-83 | the count is checked before the size and a failed check publishes nothing; otherwise one stats per publisher, each publisher's state and stats are `Published`, and no error is returned |
| RunnerPublisher.PublisherRunner.CloseAndCleanUp | runner/publisher.go:86-90 | every publisher is cleaned up exactly once |
| RunnerPublisher.PublisherRunner.Close | runner/publisher.go:93-97 | every publisher is closed exactly once |
| RmqConsumer.Timer.constructor | rmq/consumer.go:137-143 | a new timer is not running and has sent nothing |
| RmqConsumer.Timer.Start | rmq/consumer.go:145-157 | the watcher waits; nothing sent yet |
| RmqConsumer.Timer.Elapse | rmq/consumer.go:150-153 | a waiting watcher buffers one signal and ends; otherwise nothing happens, so at most one signal per instance |
| RmqConsumer.Timer.Stop | rmq/consumer.go:150-151 | a done context ends the watcher without a signal |
| RmqConsumer.Timer.Poll | rmq/consumer.go:81-82 | the select takes the buffered signal iff there is one |
| RmqConsumer.DrainFrom | rmq/consumer.go:79-97 | the select loop from event `i`: a time-out while armed ends idle if `delta == 0` and otherwise resets `delta`; a later time-out does nothing; a cancel ends; a delivery counts and ends at `n` |
| RmqConsumer.Drain | rmq/consumer.go:75-97 | the loop from zero counters with the timer armed |
| RmqConsumer.DeliveriesAppend | rmq/consumer.go:89-92 | reading one more event adds one to the delivery count exactly when it is a delivery |
| RmqConsumer.DrainKeepsCounters | rmq/consumer.go:79-96 | throughout the loop `0 <= delta <= counter`, the timer is taken at most once, and the count never decreases |
| RmqConsumer.DrainedExactlyAtN | rmq/consumer.go:89-95 | for `n >= 1` the count never exceeds `n`, and the loop ends with no error and without cancellation iff the count reaches `n` |
| RmqConsumer.CountIsDeliveries | rmq/consumer.go:79-97 | the count is the number of deliveries read; a loop that is still waiting has read every event |
| RmqConsumer.EndMatchesLastEvent | rmq/consumer.go:80-96 | a cancel end follows a `Cancel` event; an idle end follows a time-out with `delta == 0`; a drained end follows the `n`-th delivery |
| RmqConsumer.CancelKeepsCount | rmq/consumer.go:87-88 | a cancel returns the count of the deliveries read before it, so the cancel leaves the count unchanged |
| RmqConsumer.NoIdleOnceDelivered | rmq/consumer.go:82-86 | a time-out with `delta > 0` resets `delta` and goes on, so no idle error follows a delivery in the first window |
| RmqConsumer.IdleOnlyInFirstWindow | rmq/consumer.go:75-86 | `Consume` fails as idle iff the first event is the time-out |
| RmqConsumer.Closed | rmq/consumer.go:101-108 | `Close` on a state: the release calls are appended and no field changes |
| RmqConsumer.CleanedUp | rmq/consumer.go:111-124 | `CloseAndCleanUp` on a state: a no-wait delete if declared, then the release calls |
| RmqConsumer.Asserted | rmq/consumer.go:31-58 | `AssertQueue` on a state: dial, channel, Qos(4, 0, false), declare in turn; `asserted` after the declare; the first failure returns its error, closing once a connection exists |
| RmqConsumer.CleanupDeletesDeclared | rmq/consumer.go:111-124 | deletes the queue (no-wait) iff it was declared, exactly once and with no other queue call, then releases what is open; no field but the trace changes |
| RmqConsumer.AssertedResult | rmq/consumer.go:31-58 | an error iff a step failed, namely the first failing step's error; `asserted` only after the declare succeeds; a connection exists unless the dial failed |
| RmqConsumer.AssertedTrace | rmq/consumer.go:31-54 | a dial failure closes nothing; a later failure issues the setup calls up to it, then closes; success issues dial, channel, Qos(4, 0, false), declare |
| RmqConsumer.AssertedFresh | rmq/consumer.go:31-58 | on a new consumer, success leaves it ready and failure leaves the queue undeclared with the first failing step's error |
| RmqConsumer.Consumed | rmq/consumer.go:61-98 | `Consume` on a state: the consume call, then on success the drain loop, with stats named after the queue counting the loop's messages |
| RmqConsumer.ConsumedResult | rmq/consumer.go:61-98 | a refused consume returns its error and no stats; otherwise the stats count what the loop counted, the call returns iff the loop ended, and the only error is the idle one naming the queue |
| RmqConsumer.Receive | rmq/consumer.go:79-97 | the select loop returns iff the drain loop ends, with the idle error only on an idle end, and the stats count the loop's count |
| RmqConsumer.Consumer.constructor | rmq/consumer.go:22-28 | a new consumer has the given queue name and nothing open |
| RmqConsumer.Consumer.AssertQueue | rmq/consumer.go:31-58 | the fields, calls and error are those of `Asserted` |
| RmqConsumer.Consumer.Consume | rmq/consumer.go:61-98 | the state, stats, error and return are those of `Consumed` |
| RmqConsumer.Consumer.Close | rmq/consumer.go:101-108 | the new state is `Closed` of the old one |
| RmqConsumer.Consumer.CloseAndCleanUp | rmq/consumer.go:111-124 | the new state is `CleanedUp` of the old one |
| RmqConsumer.Consumer.QueueName | rmq/consumer.go:127-129 | the name the consumer was created with |
| RunnerConsumer.FirstFailure | runner/consumer.go:35-41 | the index of the first failing setup: all before it succeed, and it fails unless it is the end |
| RunnerConsumer.SetUpOne | runner/consumer.go:36-40 | a new consumer on the given name is ready, or the first failing step's error comes back |
| RunnerConsumer.SetUpEach | runner/consumer.go:35-45 | one fresh, distinct, ready consumer per name, in order, up to the first failure |
| RunnerConsumer.ConsumeEach | runner/consumer.go:63-78 | one stats per consumer, each consumer's result is `Consumed`, and the fan-in completes iff every call returned |
| RunnerConsumer.ConsumerRunner.constructor | runner/consumer.go:21-28 | stores the settings; no consumers and no cancel function |
| RunnerConsumer.ConsumerRunner.SetUpConsumers | runner/consumer.go:31-46 | sets a cancel function; exactly `k` consumers are kept for the first failure `k`; with no failure (empty name list included) no error; otherwise the error, and every kept consumer cleaned up |
| RunnerConsumer.ConsumerRunner.Run | runner/consumer.go:56-80 | a count below 1 fails before any consume; otherwise one stats per consumer, each consumer's result is `Consumed`, and no error; cancel runs once `Run` returns |
| RunnerConsumer.ConsumerRunner.CloseAndCleanUp | runner/consumer.go:83-87 | every consumer is cleaned up exactly once |
| AwsHandler.Handled | aws/handler.go:22-51 | `Handle` on values: set up a publisher, name the queue in the event, check the count then the size, publish, record the summary and any publish error, and close |
| AwsHandler.HandledEvent | aws/handler.go:26-50 | a setup failure returns the event unchanged with that error; otherwise the queue name is filled in first, then the count and then the size are checked, and an accepted load returns no error, the stats as summary and a publish error as non-fatal; the settings come back unchanged |
| AwsHandler.HandledFullLoad | aws/handler.go:42-50 | a load with no transport error reports all `messageNumber` messages and adds no non-fatal error |
| AwsHandler.HandledCalls | aws/handler.go:26-50 | after a successful setup the handler issues the setup calls, the publish calls if the load was accepted, then closes; the queue is never unbound or deleted |
| AwsHandler.Handle | aws/handler.go:22-51 | the returned event, error and publisher calls are those of `Handled` |

## Left out

- Broker and client-library behaviour: each call's answer is an input. No delivery,
  routing or queue semantics are modelled.
- UUID generation: the random ID (or its failure) is an input.
- Goroutines, channels and contexts. The runners' workers run one after another in
  resource order. The Go fan-in prints results in completion order; the model keeps
  resource order. Context cancellation reaches a consumer only as a `Cancel` event.
- Wall-clock time: an abstract integer clock (`Window`), with no 30-second duration
  arithmetic. `IdleWindow` is kept as a constant.
- The rate and `String()` rendering of both stats types (rmq/publishStats.go:40-44,
  rmq/consumerStats.go:40-44): floating point, and undefined for a zero duration. The
  handler's `Summary` is modelled as the stats value, and its `NonFatalError` as the
  queue name plus the error, not as the formatted text.
- Logging (`log.Printf`, `fmt.Printf`, `fmt.Println`), including the printing of stats by
  the runners, which the model returns as a sequence instead.
- `ConsumerRunner.SetRate` (runner/consumer.go:49-53): it calls a `SetRate` method that
  `Consumer` does not have, so there is no behaviour to model.
- The `main` programs under cmd/ and the Lambda bootstrap: configuration and entry
  points only. cmd/hammer/hammer.go, cmd/drainer/drainer.go and cmd/lambda/lambda.go are
  not part of this model.
- Go `int` overflow of the counters and indexes: integers are unbounded.
- Errors of `QueueUnbind`/`QueueDelete`/`Close` during cleanup: the code ignores or only
  logs them, so those calls are recorded as issued.
- RunnerPublisher.PublisherRunner.SetUpPublishers: stated for a runner with no
  publishers yet, the way cmd/hammer/hammer.go calls it. A second call in Go would
  append to the existing slice.
- RunnerConsumer.ConsumerRunner.SetUpConsumers: stated for a runner with no consumers
  yet, for the same reason.
- RunnerConsumer.ConsumerRunner.Run: requires `SetUpConsumers` to have run. Otherwise
  the deferred `cr.cancel()` calls a nil function and Go panics.
- RmqPublisher.PublishFrom: every publish is assumed to get an answer (a
  confirmation or a transport error). A confirmation that never arrives blocks `Publish`
  at rmq/publisher.go:100, and with it `PublisherRunner.Run` and `Handle`. That wait is
  not modelled, so `Send`, `Published`, `PublisherRunner.Run` and `Handle` always return.
- RmqPublisher.Publisher.Publish and RmqConsumer.Consumer.Consume require a channel
  (a non-nil `chann`, which `Close` does not clear), because Go dereferences a nil
  `chann` otherwise. `Publish` also requires
  `size >= 0`, because `strings.Repeat` panics on a negative count.
- RmqConsumer.Consumer.Consume: when the given events run out before the loop ends,
  the call is reported as not returned, and the stats are not yet stopped. The model
  cannot state the Go behaviour of blocking forever.
