# proxy-google-analytics: the consumer core, in Dafny

This project models the core of `proxy_google_analytics`, a relay that consumes
messages from a RabbitMQ topic exchange and hands them to a worker thread for
reporting to Google Analytics through the Measurement Protocol.

It covers two parts.

**The watcher and the worker.** `Watcher` is the pika consumer. Each delivery
is decoded as UTF-8 and the pair `(routing_key, text)` goes into a
deduplicating set `_buffer`. Once the set holds more than 2 entries it is
flushed into a FIFO (`_messages`), and a 2-second timer flushes it as well.
Decoded messages are acknowledged; messages that fail to decode are rejected
(nack). A closed connection is reopened after 5 seconds unless the watcher is
closing. `stop()` flushes the buffer, sets `_closing` and the worker's
`need_exit`, joins the worker, and cancels the consumer. The `Worker` loop takes
jobs from the front of the FIFO. It waits while the FIFO is empty and returns
only when the FIFO is empty and `need_exit` is set.

Without pika, threads and sleeps, all of this is one immutable record:
`Watcher.State` holds the buffer set, the closing flag, whether a channel is
present, and the worker's state (the shared FIFO, `need_exit`, a record of
handled jobs, and whether its loop has returned). Each callback is a
transition on that record. The calls it makes into pika are a list of emitted
`Action`s. `Service` interleaves the callbacks and the worker's loop turns one
event at a time, and proves invariants over every run.

**The hit builders.** `pageview` and `event` build one flat
`map<string, string>`. A field is written only when its argument is truthy,
meaning not `None` and not empty. Then `extra_data` is applied on top.

Modules: `Wrappers` (Option/Result), `Buffer` (entries, flush, insert),
`Worker` (loop step, drain, join), `Watcher` (state record and callbacks),
`Service` (events, invariants), `Payload` (what the builders share),
`Pageview`, `Event`.

The order in which `buffer_processing` pops a Python set is unspecified.
`Buffer.Enumerate` picks an arbitrary order, so every property about a flush
speaks of multisets: each former entry is queued exactly once, in some order.

Three facts about the code shape the model:
- The worker only logs each job (worker.py:30-34). It does not classify jobs or send reports.
- `stop()` joins the worker without a timeout (watcher.py:206).
- Exactly one queue is declared and bound (watcher.py:119-124).

## Model

| member | source | states |
|---|---|---|
| `Buffer.Enumerate` | proxy_google_analytics/watcher.py:170-171 | The pop order of the buffer lists every entry exactly once, in some order: its multiset is the set's. |
| `Buffer.Flush` | proxy_google_analytics/watcher.py:168-172 | The queue keeps its old contents in front, grows by the buffer's size, and its new tail is a permutation of the buffer. An empty buffer leaves the queue as it was. |
| `Buffer.Add` | proxy_google_analytics/watcher.py:155-157 | Inserting keeps the buffer within 2 entries. At or under the threshold the entry is simply added. Past it, the whole buffer including the new entry moves to the queue tail. The entry always ends up buffered or newly queued. |
| `Buffer.FlushConserves` | proxy_google_analytics/watcher.py:170-171 | A flush neither loses nor duplicates entries: queue afterwards = buffer + queue before, as multisets. |
| `Buffer.AddConserves` | proxy_google_analytics/watcher.py:155-157 | Buffer plus queue after an insert equals what it was before, plus the new pair unless that pair was already buffered. |
| `Buffer.AddTwiceBeforeFlush` | proxy_google_analytics/watcher.py:155-157 | Inserting the same pair twice before a flush gives the same result as inserting it once. |
| `Buffer.ThirdDistinctEntryFlushes` | proxy_google_analytics/watcher.py:155-157 | From an empty buffer, two distinct entries stay buffered. The third flushes all three to the queue, once each. |
| `Worker.Init` | proxy_google_analytics/worker.py:8-15 | A new worker has `need_exit` false, has processed nothing, and has not exited. |
| `Worker.ProcessJob` | proxy_google_analytics/worker.py:30-34 | Processing a job always yields a record that the job was handled, whether or not the logging call inside the `try` raised. The exception never escapes. |
| `Worker.ProcessingOutcomeIrrelevant` | proxy_google_analytics/worker.py:20-34 | Whether or not processing a job raised inside `message_processing`, the loop turn removes the same job and continues. The queue, the handled jobs and the exit flag are the same either way. |
| `Worker.Step` | proxy_google_analytics/worker.py:19-27 | One turn of the `while True` loop, specified by `StepTakesFront`, `StepExit` and `StepConserves`: a non-empty queue loses its front job, which is handled once; an empty queue ends the loop exactly when `need_exit` is set and otherwise waits; an exited worker stays as it is. |
| `Worker.StepTakesFront` | proxy_google_analytics/worker.py:20-23 | A turn with a non-empty queue takes the front job, processes it exactly once, and removes it. The loop keeps running whatever the processing did. |
| `Worker.StepExit` | proxy_google_analytics/worker.py:19-27 | A turn ends the loop exactly when the queue is empty and `need_exit` is set. With an empty queue and no `need_exit` it only waits. |
| `Worker.StepConserves` | proxy_google_analytics/worker.py:20-23 | A turn moves a job from the queue to the handled records and never loses or invents one (queue + processed is unchanged as a multiset). |
| `Worker.RunIsFifo` | proxy_google_analytics/worker.py:19-23 | After n turns, the first n jobs (or all of them) are processed in queue order, and the rest are still queued. |
| `Worker.RunStaysEmpty` | proxy_google_analytics/worker.py:24-27 | Once the queue is empty, further turns process nothing. |
| `Worker.NoExitWithoutRequest` | proxy_google_analytics/worker.py:24-27 | While `need_exit` is false the loop never returns, however many turns it takes. |
| `Worker.Join` | proxy_google_analytics/worker.py:19-27 | With `need_exit` set, running the loop to its end processes every queued job in order, empties the queue, and exits. A worker that already exited is returned unchanged. |
| `Worker.SplitTurn` | proxy_google_analytics/worker.py:19-27 | The loop as written, one read at a time: the emptiness test (line 20) and the `need_exit` test (line 25) are separate steps. It keeps queued plus handled jobs unchanged, and it leaves only from the `need_exit` test, with the queue exactly as it found it, which need not be empty. |
| `Worker.ExitRace` | proxy_google_analytics/worker.py:20-26 | If the thread finds the queue empty, and `stop` then queues a job and sets `need_exit` before the thread reads it, the thread leaves with that job still queued and never handled. |
| `Worker.RecheckedTurn` | proxy_google_analytics/worker.py:19-27 | The loop as evidently intended: it leaves only when `need_exit` is set and the queue is empty at that moment, so it never leaves a job queued. It keeps queued plus handled jobs unchanged. |
| `Worker.RecheckedHandlesRace` | proxy_google_analytics/worker.py:20-26 | In the same interleaving as `ExitRace`, the rechecked loop does not leave: it goes back and handles the job. |
| `Worker.RecheckedTurnIsStep` | proxy_google_analytics/worker.py:19-27 | With nothing happening between its reads, the rechecked loop takes the same turn as `Worker.Step`: one read to handle a job, two to wait or to leave. |
| `Worker.JoinIsRun` | proxy_google_analytics/worker.py:19-27 | The drain is exactly one loop turn per queued job, plus the turn that exits. |
| `Watcher.Init` | proxy_google_analytics/watcher.py:22-40 | Construction fails without an `amqp` section, because `''` has no `get`. Otherwise it starts with an empty buffer, not closing, no channel, and a fresh worker on an empty queue with `need_exit` false. |
| `Watcher.Get` | proxy_google_analytics/watcher.py:28-35 | `amqp.get(key, default)`: the section's value when the key is present, the default otherwise. `InitDefaults` and `InitFromSchema` state what this gives for an empty section and for a schema-valid one. |
| `Watcher.InitDefaults` | proxy_google_analytics/watcher.py:28-35 | An empty `amqp` section gives broker_url `''`, queue and exchange `test`, type `topic`, routing key `*`, durable true, auto_delete false. |
| `Watcher.InitFromSchema` | proxy_google_analytics/watcher.py:28-35 | A section with every key the configuration schema requires is taken verbatim, with no default used. |
| `Watcher.BufferProcessing` | proxy_google_analytics/watcher.py:168-172 | The buffer ends empty. The queue keeps its contents and gains a permutation of the former buffer. Flags, channel and the worker's handled jobs are untouched, and nothing accepted is lost. |
| `Watcher.BufferProcessingIdempotent` | proxy_google_analytics/watcher.py:168-172 | Flushing twice in a row is the same as flushing once. |
| `Watcher.OnConnectionOpen` | proxy_google_analytics/watcher.py:48-53 | Opening a connection first opens a channel. The timer's first run then flushes the buffer without loss and arms the 2-second flush timer. |
| `Watcher.OnFlushTimer` | proxy_google_analytics/watcher.py:163-166 | A timer tick empties the buffer without loss and re-arms itself after 2 seconds. |
| `Watcher.OnChannelOpen` | proxy_google_analytics/watcher.py:85-90 | The channel becomes present, buffer, worker and closing flag are unchanged, and the exchange is declared. |
| `Watcher.OnExchangeDeclareOk` | proxy_google_analytics/watcher.py:110-114 | Declaring the exchange leads to declaring and binding the queue and starting consumption, and the state is unchanged. |
| `Watcher.OnChannelClosed` | proxy_google_analytics/watcher.py:97-101 | A closed channel closes the connection and changes nothing else. |
| `Watcher.OnConnectionClosed` | proxy_google_analytics/watcher.py:60-68 | The channel becomes absent. When closing, the loop stops. Otherwise a reconnect is scheduled after 5 seconds. |
| `Watcher.Reconnect` | proxy_google_analytics/watcher.py:70-78 | The reconnect timer stops the old loop, and opens a new connection only when not closing. |
| `Watcher.OnConsumerCancelled` | proxy_google_analytics/watcher.py:137-142 | A remote cancel closes the channel exactly when one is present. |
| `Watcher.StopConsuming` | proxy_google_analytics/watcher.py:182-185 | `Basic.Cancel` is sent exactly when a channel is present, and nothing else is sent. |
| `Watcher.OnCancelOk` | proxy_google_analytics/watcher.py:187-194 | A confirmed cancel closes the channel. |
| `Watcher.MessageProcessing` | proxy_google_analytics/watcher.py:150-161 | The result is true exactly when the body is empty or decodes. An empty or undecodable body changes nothing. A decoded body inserts `(routing key, text)` through `Buffer.Add`, so the pair is buffered or newly queued and the buffer stays within 2. |
| `Watcher.OnMessage` | proxy_google_analytics/watcher.py:144-148 | Exactly one of ack or nack is sent. Ack is sent exactly when the body is empty or decodes. A nack leaves the state unchanged. |
| `Watcher.AckMeansAccepted` | proxy_google_analytics/watcher.py:144-157 | An acked non-empty message's pair is buffered, queued or processed, and everything held before is still held. |
| `Watcher.Stop` | proxy_google_analytics/watcher.py:201-209 | Afterwards the buffer is empty, `_closing`, `need_exit` and "exited" all hold, and nothing is lost. A running worker has handled its earlier jobs, then the old queue in order, then every former buffer entry once. Cancel is sent only if a channel exists, and the loop is restarted. |
| `Watcher.FlushThenJoin` | proxy_google_analytics/watcher.py:203-206 | The flush comes before the join, so the join drains the old queue and then the flushed buffer. An already exited worker is left as it was. |
| `Worker.JoinAppends` | proxy_google_analytics/worker.py:17-28 | Joining a worker whose handled jobs followed by its queue spell `before + flushed` empties the queue and leaves exactly that sequence handled. |
| `Service.InitInv` | proxy_google_analytics/watcher.py:24-40 | The constructed state satisfies the invariant: buffer within 2, `need_exit` equal to `_closing`, exit only after `need_exit`. |
| `Service.ApplyPreservesInv` | proxy_google_analytics/watcher.py:156-157 | Every enabled event preserves that invariant, so the buffer never holds more than 2 entries. |
| `Service.ApplyConserves` | proxy_google_analytics/watcher.py:150-172 | Across every event, buffered + queued + processed is unchanged, except that a delivery adds its decoded pair when that pair is not already buffered. |
| `Service.DeliveryConserves` | proxy_google_analytics/watcher.py:150-161 | The delivery case of that conservation law. |
| `Service.TurnConserves` | proxy_google_analytics/worker.py:20-23 | A worker turn keeps buffered + queued + processed unchanged. |
| `Service.StopConserves` | proxy_google_analytics/watcher.py:201-207 | `stop` keeps buffered + queued + processed unchanged. |
| `Service.FlushEventConserves` | proxy_google_analytics/watcher.py:163-172 | Connection open and timer flushes keep buffered + queued + processed unchanged. |
| `Service.ClosingIsPermanent` | proxy_google_analytics/watcher.py:201-205 | Once `_closing` is set, no event clears it. |
| `Service.ReconnectOnlyWhenOpen` | proxy_google_analytics/watcher.py:60-78 | A reconnect is scheduled only by a connection close while not closing, always with delay 5. A new connection is opened only by the reconnect timer while not closing. |
| `Service.AckActions` | proxy_google_analytics/watcher.py:144-148 | A delivery emits nothing but ack or nack. |
| `Service.StopActions` | proxy_google_analytics/watcher.py:201-208 | `stop` emits nothing but the cancel and the loop restart. |
| `Service.ExitOnlyAfterStop` | proxy_google_analytics/worker.py:19-27 | The worker's loop returns only inside `stop`'s join, or on a turn that finds the queue empty after `stop`. |
| `Service.ExitedHandledFrozen` | proxy_google_analytics/worker.py:19-28 | After the worker has returned, no event processes anything more. |
| `Service.LateDeliveryIsStranded` | proxy_google_analytics/watcher.py:201-208 | After `stop` restarts the loop, a decodable delivery is still acked and held, but the worker has exited, so it is never processed. |
| `Service.RunPreservesInv` | proxy_google_analytics/watcher.py:150-172 | The invariant holds after every run of enabled events. |
| `Service.RunNeverLoses` | proxy_google_analytics/watcher.py:150-172 | Over any run, everything buffered, queued or processed at the start still is at the end. |
| `Payload.Fill` | proxy_google_analytics/google_measurement_protocol/pageview.py:11-26 | The `if arg: payload[key] = arg` chain, shared with event.py:8-11, specified by `FillKeeps`, `FillWrites` and `FillKeys`: every truthy field is written, every other key is kept, and no other key is added. |
| `Payload.FillKeeps` | proxy_google_analytics/google_measurement_protocol/pageview.py:11-26 | The chain of `if arg: payload[key] = arg` leaves alone every key that no field names. |
| `Payload.FillWrites` | proxy_google_analytics/google_measurement_protocol/pageview.py:11-26 | With distinct keys, a field's key ends up holding its argument when the argument is truthy. Otherwise the key is left as it was. |
| `Payload.FillKeys` | proxy_google_analytics/google_measurement_protocol/pageview.py:11-26 | The chain adds no key other than the fields' own. |
| `Pageview.Pageview` | proxy_google_analytics/google_measurement_protocol/pageview.py:4-29 | Exactly one hit is yielded. Its `t` is `pageview` unless `extra_data` gives one. Each of dl, dh, dp, dt, dr, ul, uip, ua is present iff its argument is truthy or an extra supplies it, and holds the extra value or the argument. There are no other keys but extras, and every extra wins. |
| `Pageview.Build` | proxy_google_analytics/google_measurement_protocol/pageview.py:9-28 | The payload before `yield`, specified by `BuildIsValid`, `BuildKeys` and `ValidDeterminesHit`: it is the one map meeting `Valid`. |
| `Pageview.BuildKeys` | proxy_google_analytics/google_measurement_protocol/pageview.py:9-28 | The built payload holds only `t`, the eight optional fields and the extras, and every extra entry keeps its own value. |
| `Pageview.BuildIsValid` | proxy_google_analytics/google_measurement_protocol/pageview.py:9-28 | The built payload meets that contract. |
| `Pageview.ValidDeterminesHit` | proxy_google_analytics/google_measurement_protocol/pageview.py:9-28 | Two maps that both meet the contract are equal, so the contract is complete. |
| `Pageview.ValidIsUnique` | proxy_google_analytics/google_measurement_protocol/pageview.py:9-29 | Any map meeting the contract is exactly the one hit yielded. |
| `Pageview.BareHit` | proxy_google_analytics/google_measurement_protocol/pageview.py:9-29 | With no truthy argument and no extras, the hit is exactly `{t: pageview}`. |
| `Event.Event` | proxy_google_analytics/google_measurement_protocol/event.py:4-13 | Exactly one hit is yielded. `t = event`, `ec = category` and `ea = action` are always present unless overridden. `el` and `ev` are present iff label and value are truthy or an extra supplies them. There are no other keys but extras, and every extra wins. |
| `Event.Build` | proxy_google_analytics/google_measurement_protocol/event.py:7-12 | The payload before `yield`, specified by `BuildIsValid` and `ValidDeterminesHit`: it is the one map meeting `Valid`. |
| `Event.BuildIsValid` | proxy_google_analytics/google_measurement_protocol/event.py:7-12 | The built payload meets that contract. |
| `Event.ValidDeterminesHit` | proxy_google_analytics/google_measurement_protocol/event.py:7-12 | Two maps that both meet the contract are equal, so the contract is complete. |
| `Event.ValidIsUnique` | proxy_google_analytics/google_measurement_protocol/event.py:7-13 | Any map meeting the contract is exactly the one hit yielded. |
| `Event.BareHit` | proxy_google_analytics/google_measurement_protocol/event.py:7-13 | Without a truthy label or value and without extras, the hit holds exactly `t`, `ec` and `ea`, even when category or action is empty. |

## Left out

- pika I/O is not modelled. This covers `connect`, `SelectConnection`, `ioloop.start`/`stop`, `add_timeout`, `run`, `close_connection`, and the channel RPCs. Each appears only as an emitted `Action` or an incoming `Service.Event`.
- The registration of close and cancel callbacks is left out: it changes no state.
- Wall-clock timing is left out. The periodic flush is a `FlushTimer` event, and the reconnect is a `ReconnectTimer` event after `ScheduleReconnect(5)`.
- Threads are left out. The worker thread is one `WorkerTurn` event per loop turn, interleaved with the callbacks. `time.sleep` is a turn that changes nothing, and `join` is `Worker.Join`. A turn is atomic: the source's two reads inside one turn are split only in `Worker.SplitTurn` (see "## Findings").
- UTF-8 decoding is a parameter `decode: seq<byte> -> Option<string>`.
- Worker.ProcessJob: its `Handled`/`Caught` record is a model-only record meaning "job handled". It is not log output. The logger's level is INFO (logger.py:10, 14), so the `logger.debug` at worker.py:32 writes nothing. The `raises` parameter over-approximates a logging failure there.
- Watcher.MessageProcessing: takes the `logger.debug` calls inside its `try` (watcher.py:157, reaching 169 and 172) as never raising. If one raised after `_buffer.add`, the source would return False and nack a message whose entry is already held. The model does not cover that.
- Watcher.OnMessage: requires a channel to be present. The source calls `_channel.basic_ack` unguarded, and pika delivers only while a channel is open.
- Watcher.OnExchangeDeclareOk: requires a channel to be present. `setup_queue` calls `_channel.queue_declare` and `_channel.queue_bind` unguarded (watcher.py:121, 124), which raise `AttributeError` on None. pika calls `on_exchange_declareok` only on the open channel that declared the exchange.
- Watcher.OnCancelOk: requires a channel to be present. `close_channel` calls `_channel.close()` unguarded (watcher.py:194), which raises `AttributeError` on None. pika delivers `Basic.CancelOk` only on the open channel that sent the cancel.
- Watcher.Stop: is one atomic event between callbacks. In the source, `stop()` can run from the SIGTERM handler (main.py:42-43) on the ioloop thread, in the middle of a callback. An example is between `self._buffer.pop()` and `self._messages.put(...)` at watcher.py:171. The interrupted `put` then enqueues the popped entry after the worker has exited. On the KeyboardInterrupt path (main.py:39-40) the popped entry is abandoned. The row's "nothing is lost" holds only when `stop` does not interrupt a flush. The row's drain also rests on an atomic worker turn (`Worker.Step`). In the source, the worker can find the queue empty (worker.py:20) just before `stop` flushes and sets `need_exit` (watcher.py:203-205). It then reads `need_exit` (worker.py:25) and breaks, leaving the flushed entries queued and never handled. They are acked and stay in the queue, so `Service.RunNeverLoses` still holds. The race is modelled by `Worker.SplitTurn` under "## Findings".
- Watcher.FlushThenJoin: "the join drains the flushed buffer" holds for the model's atomic worker turn, which is the rechecked loop of "## Findings". For the loop as written it can fail: the worker can break at worker.py:26 after finding the queue empty at line 20, before the flush at watcher.py:203. The flushed entries then stay queued (`Worker.ExitRace`).
- Event.Event: models `value` as a string, as its type annotation says. For a non-string value, the text `str(value)` produces is not modelled.
- Logging, `main.py` (argument parsing, signals, exit codes), `logger.py`, `utils.py`, `click_db` and `setup.py` are left out as process plumbing. The one use of the configuration schema is the set of `amqp` keys in `Watcher.InitFromSchema`.

## Findings

| source | as written | input that shows it | evidently intended | confidence | as-written member | corrected member |
|---|---|---|---|---|---|---|
| proxy_google_analytics/worker.py:20-26 | The loop tests `queue.empty()` and, in a separate read, `need_exit`, then breaks without looking at the queue again. | The worker finds the queue empty. `stop()` then flushes one buffered entry `j` onto the queue (watcher.py:203) and sets `need_exit` (watcher.py:205). The worker reads `need_exit` and breaks with `[j]` still queued, and `join()` returns with `j` never handled. | Leave only when `need_exit` is set and the queue is still empty, so that the join after the flush handles every flushed entry. | not executed; medium: the window is the gap between two reads on the worker thread | `Worker.SplitTurn`, `Worker.ExitRace` | `Worker.RecheckedTurn`, `Worker.RecheckedHandlesRace`, `Worker.RecheckedTurnIsStep` |
