# rabbit-outbox relay, modelled in Dafny

This project models the core of a transactional-outbox relay for RabbitMQ.

- **Outbox runners.** Records written to a MongoDB "outbox" collection are published to the broker, then marked sent. They are found in one of two ways:
  - a *push* runner follows the collection's change stream and checkpoints a resume token after each change;
  - a *poll* runner periodically scans for unsent records.
- **Task queue.** The push runner executes its work through a sequential *task queue*.
- **Broker connection.** The runners reach the broker through a *connection* object. It:
  - names queues and exchanges under optional prefixes;
  - declares each queue and exchange at most once;
  - builds retry chains (a primary queue and a delay queue that dead-letter into each other);
  - binds queues according to the kind of message source;
  - computes a delivery's attempt number from the broker's `x-death` header.

Four files make up the model:

- `common.dfy` (module `Common`): `Option`, `Result` and one sequence lemma.
- `task_queue.dfy` (module `TaskQueues`): the linked FIFO.
  - A `TaskQueue` class holds `head`, `tail` and `running`, plus ghost `Contents` and `Nodes`.
  - `TaskNode` objects are linked in place.
  - Draining is specified by the function `Drained`.
- `rabbit.dfy` (module `Rabbit`): the connection.
  - Naming, bindings, attempts, the consumer handler and the status machine are functions and lemmas.
  - The `RabbitConnection` class holds the status, the channel cache, the two "asserted" name sets and a log of every broker call it made.
  - Its invariant is that the asserted sets are exactly the names declared in the log, each declared once.
- `outbox_runner.dfy` (module `Outbox`): the two runners.
  - The collection is a map from id to record.
  - Every external effect (publish, mark sent, checkpoint) is appended to an effect log.
  - The runners keep the store equal to `Replay(initialStore, log)` and the persisted token equal to `PersistedToken(log, initialToken)`.
  - The effect log is what the ordering properties are stated over.

These are parameters of the model:

- Whether a step throws is an oracle: a function from a change to a `Fault` for the push runner, and from a record id to a `PollFault` for the poll runner.
- The clock is read once per record. A single step takes its reading as the parameter `now`. A whole drain or poll pass takes a function `clock` from the change or record to the reading taken when that record is marked.
- The history position a new change stream opens at is the parameter `startAt`. A stream without a resume token starts there, because the database opens such a stream at the current time.
- Serialization is the parameters `serialize` and `deserialize`.
- The application callback is `callback`.

## Model

| member | source | states |
|---|---|---|
| TaskQueues.TaskNode.constructor | src/task-queue.ts:6-8 | a node holds its task and has no successor |
| TaskQueues.TaskQueue.constructor | src/task-queue.ts:15-17 | a new queue is empty, valid and not running |
| TaskQueues.TaskQueue.HeadTailAgree | src/task-queue.ts:20-21 | `head` is undefined exactly when `tail` is, exactly when nothing is pending |
| TaskQueues.TaskQueue.Enqueue | src/task-queue.ts:20-25 | the pending sequence becomes the old one followed by the task; the task sits at `tail`; `running` is untouched; the list stays well formed |
| TaskQueues.TaskQueue.Push | src/task-queue.ts:19-27 | appends, then drains. While a drain is running, the task just waits at the back. Otherwise every pending task, the new one last, is drained in order and the queue ends empty and not running |
| TaskQueues.TaskQueue.Pop | src/task-queue.ts:29-42 | on an empty queue it returns `None` and changes nothing. Otherwise it returns the head task and the pending sequence loses its first element |
| TaskQueues.TaskQueue.Run | src/task-queue.ts:44-59 | single-flight: when already running, nothing is popped and nothing is traced. Otherwise the trace is `Drained` of the pending tasks, and the queue ends empty with `running` false |
| TaskQueues.TaskQueue.DrainLoop | src/task-queue.ts:49-57 | the loop pops until empty and emits one event per popped task, front first |
| TaskQueues.DrainedInOrder | src/task-queue.ts:49-56 | draining yields one event per task, in submission order. Task i completes exactly when it passes. When it fails, the event carries its error and whether its `onerror` was called, and the drain continues |
| TaskQueues.DrainedLength | src/task-queue.ts:49-56 | draining yields exactly one event per task |
| TaskQueues.DrainedAppend | src/task-queue.ts:19-27 | tasks pushed behind a pending batch are drained after the whole batch |
| TaskQueues.TaskQueue.Clear | src/task-queue.ts:61-70 | every node that was pending has its `next` link cleared; `head` and `tail` become undefined and nothing is pending; `running` is unchanged; the same queue object is returned |
| Rabbit.QueueNameShape | src/rabbit.ts:8-13 | with a non-empty prefix the name is prefix, `.`, name. Otherwise (absent or empty prefix) it is the name unchanged |
| Rabbit.ExchangeNameShape | src/rabbit.ts:15-20 | the exchange name is the topic namespaced like a queue name, then `.` and the type |
| Rabbit.QueueNameInjective | src/rabbit.ts:8-13 | under one prefix, distinct names give distinct queue names |
| Rabbit.DelayQueueIsDistinct | src/rabbit.ts:173 | the `<name>.delay` queue never coincides with the primary queue |
| Rabbit.TypeNameHasNoDot | src/interfaces.ts:3 | no exchange type name contains a `.` |
| Rabbit.ExchangeNameInjective | src/rabbit.ts:15-20 | under one prefix the exchange name determines both topic and type |
| Rabbit.BindingFor | src/rabbit.ts:209-225 | direct and topic sources bind with the source's routing key. Fanout binds with `''`. Headers binds with `''`, and its arguments are the header table with `x-match` added, the table's own entries winning. Any other type is an error naming the topic and the type |
| Rabbit.FirstRejected | src/rabbit.ts:137-139 | finds the first `x-death` entry whose reason is `rejected` and whose queue is the consuming queue, or reports that none exists |
| Rabbit.Attempts | src/rabbit.ts:136-140 | the first rejection's count plus 1, or 1 when there is none; at least 1 when counts are non-negative |
| Rabbit.AttemptsIgnoresOtherEntries | src/rabbit.ts:137-140 | entries about other queues or other reasons never affect the attempt number |
| Rabbit.RejectionsFromAll | src/rabbit.ts:137-139 | the filtered entries are all rejections from the queue, and none remain when there is no such rejection |
| Rabbit.RejectionsFromHead | src/rabbit.ts:137-139 | the first filtered entry is the first matching entry |
| Rabbit.OnMessage | src/rabbit.ts:130-146 | a nil delivery is ignored, and only a nil one. A delivery is handled only when it deserializes and the callback succeeds; the message carries the computed attempts. Otherwise it is nacked with requeue, and exactly that delivery |
| Rabbit.LastEventDecidesStatus | src/rabbit.ts:67-84 | after any events the status is `connected` if the last was a connect and `reconnecting` if it was a disconnect or a failed connect; `connecting` only before any event |
| Rabbit.WithChannel | src/rabbit.ts:96-104 | the cache gains exactly the requested key; existing channels are kept; a new one is created with that key as prefetch |
| Rabbit.RetryChainIsCycle | src/rabbit.ts:172-186 | when the delay queue was not asserted before, the retry chain makes the primary queue dead-letter into the delay queue and the delay queue dead-letter back into the primary queue, and declares the delay queue with the delay as TTL (a delay queue asserted earlier is not redeclared, so its options are whatever they were) |
| Rabbit.DeclaredOnceAppend | src/rabbit.ts:155-161 | declaring a name not yet declared keeps every declaration unique and adds exactly that name |
| Rabbit.RabbitConnection.constructor | src/rabbit.ts:65-67 | no channels, nothing asserted, no broker calls, status `connecting` |
| Rabbit.RabbitConnection.Send | src/rabbit.ts:117 | a non-declaring call is appended to the broker log |
| Rabbit.RabbitConnection.Declare | src/rabbit.ts:160-161 | a declaration is appended to the log and its name added to the matching asserted set |
| Rabbit.RabbitConnection.OnConnect | src/rabbit.ts:69-76 | the status becomes `connected`; it reports a reconnection exactly when the status was `reconnecting` |
| Rabbit.RabbitConnection.OnDisconnect | src/rabbit.ts:77-80 | the status becomes `reconnecting` |
| Rabbit.RabbitConnection.OnConnectFailed | src/rabbit.ts:81-84 | the status becomes `reconnecting` |
| Rabbit.RabbitConnection.AssertChannel | src/rabbit.ts:95-107 | returns the channel cached for the concurrency (default 1), creating it with that prefetch only when absent |
| Rabbit.RabbitConnection.Publish | src/rabbit.ts:109-118 | publishes the serialized content to the resolved exchange, with routing key `''` when none is given, on the default channel |
| Rabbit.RabbitConnection.Subscribe | src/rabbit.ts:120-149 | consumes from the prefixed queue on the channel of the requested concurrency |
| Rabbit.RabbitConnection.AssertQueue | src/rabbit.ts:151-163 | idempotent. A name already asserted makes no broker call. Otherwise there is exactly one declaration, and the name joins the asserted set |
| Rabbit.RabbitConnection.AssertExchange | src/rabbit.ts:190-202 | idempotent in the same way, for the exchange of a topic and type |
| Rabbit.RabbitConnection.BindQueue | src/rabbit.ts:204-226 | binds the prefixed queue to the source's exchange as `BindingFor` chooses; an unknown source type is an error and sends nothing |
| Rabbit.RabbitConnection.AssertRetryableQueue | src/rabbit.ts:165-188 | when the primary queue is already asserted (even by a plain `assertQueue`), nothing changes. Otherwise the log gains, in order: the retry exchange and the delay queue (each only if new), the primary queue, and the two bindings |
| Rabbit.RabbitConnection.DeclareRetryQueues | src/rabbit.ts:172-184 | declares `retry.direct`, the delay queue (TTL = delay, dead-lettering to the primary queue) and the primary queue (caller's options, dead-lettering to the delay queue) |
| Rabbit.RabbitConnection.BindRetryQueues | src/rabbit.ts:185-186 | binds both queues to the retry exchange, each under its own name |
| Outbox.MarkSent | src/outbox-runner.ts:85 | marks exactly that record sent at the given time, keeping its event, payload and creation time; a missing id matches nothing |
| Outbox.Replay | src/outbox-runner.ts:82-88 | replaying effects never adds or removes records |
| Outbox.LogSnoc | src/outbox-runner.ts:82-88 | appending one effect replays as applying it last |
| Outbox.ReplayAppend | src/outbox-runner.ts:82-88 | replaying two logs in turn replays their concatenation |
| Outbox.OrderSnoc | src/outbox-runner.ts:82-88 | an effect that follows its predecessor keeps the publish-then-mark-then-checkpoint order |
| Outbox.SentWasPublished | src/outbox-runner.ts:84-85 | a record the log turns from unsent to sent was published by that log |
| Outbox.PersistedTokenWasCheckpointed | src/outbox-runner.ts:87 | the persisted token is the initial one or the token of some checkpoint in the log |
| Outbox.PersistedTokenWasConfirmed | src/outbox-runner.ts:82-88 | the token only advances to a change whose record was published and then marked, right before |
| Outbox.PublishThenMark | src/outbox-runner.ts:84-85 | a publish changes no record and no token; the mark that follows marks exactly that record |
| Outbox.TaskEffectsReplay | src/outbox-runner.ts:82-88 | a relay task marks its record only once published and moves the token only when all three steps succeed; a failing task leaves the token where it was |
| Outbox.ChangeIds | src/outbox-runner.ts:80-81 | lists the record ids of the queued changes, in queue order |
| Outbox.PublishedIdsAppend | src/outbox-runner.ts:82-88 | the ids published by two logs in turn are those of each, concatenated |
| Outbox.TaskPublishesOnce | src/outbox-runner.ts:84 | a task publishes its own record once, unless publishing throws |
| Outbox.DrainPublishesInOrder | src/outbox-runner.ts:80-93 | records are published in the order their changes were queued; a failing task stops the rest (the published ids are a prefix of the queued ones, all of them when nothing fails) |
| Outbox.PushOutboxRunner.constructor | src/outbox-runner.ts:51-55 | a fresh, idle, empty queue; no stream yet |
| Outbox.PushOutboxRunner.Start | src/outbox-runner.ts:57-62 | does nothing once a stream exists; otherwise runs |
| Outbox.PushOutboxRunner.Run | src/outbox-runner.ts:64-79 | opens a stream that resumes after the persisted token. With no token, the stream starts at the history position reached when it opens |
| Outbox.PushOutboxRunner.Stop | src/outbox-runner.ts:112-117 | closes the current stream when there is one; otherwise nothing |
| Outbox.PushOutboxRunner.Execute | src/outbox-runner.ts:82-88 | publish, mark sent, persist the token, each only after the previous one succeeded; store and token stay the replay of the log |
| Outbox.PushOutboxRunner.OnTaskError | src/outbox-runner.ts:89-93 | clears the queue and opens a new stream from the persisted token, leaving the old stream as it was |
| Outbox.PushOutboxRunner.OnStreamErrorOrEnd | src/outbox-runner.ts:97-109 | closes the stream, clears the queue and reopens from the persisted token |
| Outbox.PushOutboxRunner.OnChange | src/outbox-runner.ts:80-95 | pushes a task with an `onerror` for the change. It waits while a drain runs. Otherwise the pending tasks are drained up to the first failure, each record marked at its own clock reading, after which the stream is restarted |
| Outbox.PushOutboxRunner.Drain | src/task-queue.ts:44-59 | the queue's single-flight drain over the runner's tasks, with their `execute` and `onerror` |
| Outbox.PushOutboxRunner.DrainLoop | src/task-queue.ts:49-57 | pops and executes tasks until the queue is empty. The effects are those of the pending tasks up to the first failure, each with its own clock reading. The stream restarts exactly when a task failed |
| Outbox.PushOutboxRunner.DrainStep | src/outbox-runner.ts:82-93 | one task: execute it and, when it throws, run its `onerror` |
| Outbox.PushOutboxRunner.Deliver | src/outbox-runner.ts:80-95 | any stream that is not closed delivers the next change after its position, and the handler runs that change's task. The log gains the task's effects. The token moves to the change only when the task succeeds. The stream's position advances, and a failure opens a new stream from the persisted token |
| Outbox.PushOutboxRunner.DeliverCurrent | src/outbox-runner.ts:80-93 | the corrected handler. A change from a stream that is not current, or is closed, changes nothing. A change from the current stream is handled: the log gains its task's effects, the token moves to it exactly when the task succeeds, and the streams advance or restart as in `Deliver`. Either way the runner stays resumable |
| Outbox.CheckpointsOf | src/outbox-runner.ts:87 | the checkpoint of each change, pointwise and in order |
| Outbox.CheckpointsAppend | src/outbox-runner.ts:87 | the checkpoints of two logs in turn are those of each, concatenated |
| Outbox.TaskCheckpoints | src/outbox-runner.ts:82-88 | a task checkpoints its own change once, and only when all three steps succeed |
| Outbox.CheckpointIsInLog | src/outbox-runner.ts:87 | every filtered checkpoint is an effect of the log |
| Outbox.CheckpointsAdvance | src/outbox-runner.ts:87 | moving the persisted position one change ahead adds exactly that change's checkpoint |
| Outbox.ChangeBehindTokenConfirmed | src/outbox-runner.ts:82-88 | once a token is persisted and the runner is resumable, every change from the origin up to that token had its record published and then marked, right before its checkpoint |
| Outbox.StartsResumable | src/outbox-runner.ts:57-62 | before any stream or task, the runner is resumable from its initial token |
| Outbox.RestartKeepsResumable | src/outbox-runner.ts:97-109 | opening a stream from the persisted token, wherever the history stands, or closing the current stream keeps the runner resumable |
| Outbox.DeliveryKeepsResumable | src/outbox-runner.ts:80-93 | the current stream delivering its next change keeps the runner resumable. On success that change is checkpointed, and it becomes the origin if it is the first checkpoint. On failure nothing is checkpointed. Once a token is persisted, the new stream delivers the failed change again. Before any token is persisted, the new stream starts where the history stands, so the failed change is not delivered again |
| Outbox.SucceededDeliveryResumable | src/outbox-runner.ts:82-88 | a delivered change whose task succeeds is checkpointed right after the previous persisted token, so the runner stays resumable |
| Outbox.FailedDeliveryResumable | src/outbox-runner.ts:89-93 | a delivered change whose task throws adds no checkpoint, and the stream opened from the persisted token keeps the runner resumable |
| Outbox.ScenarioOutcome | src/outbox-runner.ts:82-88 | after the scenario's one successful task, on record 3, record 2 is unchanged and the only checkpoint is change 3 |
| Outbox.ScenarioFailure | src/outbox-runner.ts:89-93 | in the scenario, change 2 throws at publish: nothing is logged, the first stream has delivered one change, and a second stream opens |
| Outbox.FailThenStaleDelivery | src/outbox-runner.ts:80-93 | change 2 fails at publish, then the stale first stream delivers change 3. The token moves to 3 and the only checkpoint is change 3 |
| Outbox.StaleStreamScenario | src/outbox-runner.ts:80-93 | as written, starting after token 1, the persisted token reaches change 3 while record 2 is unsent and change 2 was never checkpointed |
| Outbox.Confirmed | src/outbox-runner.ts:140-147 | the number of found records before the first failure: all earlier steps succeed, and the step at that index fails |
| Outbox.PollEffectsFrom | src/outbox-runner.ts:140-147 | the pass over the rest of the found records is one iteration, then the remainder of the pass if that iteration succeeded |
| Outbox.PollEffectsReplay | src/outbox-runner.ts:141-146 | a pass replays as marking its first record (when publish and mark succeed) and then the pass over the rest; a first failure changes nothing |
| Outbox.PollPassMarks | src/outbox-runner.ts:140-147 | every record before the first failure is marked sent, with `sentAt` the clock reading taken for that record |
| Outbox.PollPassKeeps | src/outbox-runner.ts:140-147 | every record not before the first failure keeps its state |
| Outbox.PollOutboxRunner.constructor | src/outbox-runner.ts:128-132 | not running; the interval timer is armed |
| Outbox.PollOutboxRunner.Start | src/outbox-runner.ts:134-150 | a call during a pass changes nothing. Otherwise records before the first failure become sent, each at its own clock reading, the failing and later records stay unsent, and no other record changes. Every mark follows its publish, and `running` is false again at the end |
| Outbox.PollOutboxRunner.PollPass | src/outbox-runner.ts:140-148 | the loop's effects are exactly the pass's effects: for each record in the order found, a publish and then a mark at that record's clock reading, stopping at the first throw |
| Outbox.PollOutboxRunner.PollStep | src/outbox-runner.ts:141-146 | publish, then mark; it succeeds exactly when neither throws, and only then is the record marked |
| Outbox.PollOutboxRunner.Stop | src/outbox-runner.ts:152-155 | disarms the interval timer |

## Findings

| source | as written | input that shows it | evidently intended | confidence | as-written member | corrected member |
|---|---|---|---|---|---|---|
| src/outbox-runner.ts:80-93 | a task's `onerror` clears the queue and runs again without closing the stream it came from. That stream's `change` handler stays registered and keeps pushing later changes | the persisted token is 1, and the history is [change 1, change 2, change 3]. Publishing record 2 throws. The first stream then delivers change 3, which succeeds. The persisted token becomes 3 while record 2 is unsent and change 2 was never checkpointed, so a runner started again from that token never delivers change 2 | changes from a stream that is no longer current are ignored (or the stream is closed as the `error`/`end` handlers do). Then the checkpoints are exactly the changes up to the persisted token, none skipped | medium, not executed | Outbox.StaleStreamScenario | Outbox.PushOutboxRunner.DeliverCurrent |

## Left out

- Logging, `minify` and the log-only error formatting are not modelled; they have no effect on the state.
- Asynchrony is flattened into sequential steps, with no claim about interleavings. This covers promise interleavings, event-emitter callbacks, `waitForConnect`, and `start` racing the awaited token read before `stream` is assigned.
- The one-second delay before a restart after a stream error or end is not modelled; the restart happens at once.
- Outbox.PushOutboxRunner.DeliverCurrent: resumability is proved for one change delivered at a time on an idle runner. Its no-skip guarantee starts with the first persisted token: as in the source, a change whose task throws before any token is persisted is not delivered again. For the other handlers (`Run`, `Stop`, `OnStreamErrorOrEnd`) it is stated only by the pure lemmas `StartsResumable` and `RestartKeepsResumable`, not in their own contracts.
- Outbox.PushOutboxRunner.OnTaskError: as in the source, `onerror` re-runs without closing the old stream. The model keeps every stream ever opened, and `Deliver` lets any open stream deliver. The consequence is under "## Findings". `DeliverCurrent` is the corrected handler.
- Broker semantics are not modelled: routing, TTL expiry, dead-letter delivery, prefetch enforcement and channel reconnection. Declarations, bindings, publishes and consumers are recorded in a call log only.
- The broker is taken to reply to `assertQueue`/`assertExchange` with the name it was asked for. A server-named queue (an empty name) is not modelled.
- `serialize`, `deserialize` and the application callback are uninterpreted parameters; JSON is not modelled.
- Consumer options other than `concurrency` are not modelled; they are passed through to the library.
- Queue options other than `durable`, `autoDelete`, `messageTtl`, `deadLetterExchange` and `deadLetterRoutingKey` are not modelled. `{...options}` passes every caller option through to the primary queue, but `QueueOptions` keeps only these five.
- Rabbit.RabbitConnection.AssertQueue: the declaration is modelled as always succeeding. In the source the name joins the asserted set only after the awaited declaration resolves, so a failed declaration is retried on the next call.
- Rabbit.RabbitConnection.AssertExchange: the declaration is modelled as always succeeding, with the same consequence as for `AssertQueue`.
- Rabbit.RabbitConnection.BindQueue: the broker's binding call is modelled as always succeeding; only the unknown-type error is modelled.
- Rabbit.RabbitConnection.Publish: the broker's publish is modelled as always succeeding.
- Rabbit.RabbitConnection.AssertRetryableQueue: every broker call of the chain is modelled as succeeding. In the source a binding can fail after the primary queue was recorded as asserted, and later calls then stop at the guard and never repair the chain.
- Rabbit.RabbitConnection.Subscribe: the per-message handler is the separate function `OnMessage`, not a closure registered with the consumer.
- `close` and the `status` getter are not modelled; they are plain delegation.
- If `find` throws at the start of a poll pass, `running` is never reset. Only the successful `find` is modelled; its result is the parameter `found`, which must list the unsent records.
- Outbox.PushOutboxRunner.Run: a failure of the resume-token read is not modelled; the read always returns the persisted token.
- Exceptions thrown by an `onerror` handler, and rejected promises of event callbacks, are not modelled.
- Producers inserting outbox records are not modelled. Record ids and change tokens are natural numbers, and the record payload is a string.
- The resume-token manager's file I/O is not modelled. It is the persisted `Option<Token>`, and src/resume-token-manager.ts is not part of this model.
- TaskQueues.TaskQueue.Run: an outcome oracle replaces awaiting `execute`. The queue's own `run` has no state effects of its own beyond popping. The push runner's drain (`Outbox.PushOutboxRunner.Drain`) repeats the loop with the runner's state-changing tasks.
