# SiteSense ingestion pipeline — a Dafny model

SiteSense ingests telemetry from soil compactors. A simulator publishes one
JSON point per tick on the MQTT topic `site/{siteId}/vehicle/{vehicleId}/telemetry`.
The ingestion service subscribes to those topics and decodes each payload.
It offers every point to a bounded in-memory channel without blocking, and
counts messages, errors and drops. A background processor reads the channel
into batches of at most 500 points. It hands a batch to the SQL bulk writer
when the batch is full, or when a one-second read wait times out with a
non-empty batch.

The model has six modules, one per file:

- `Telemetry` (`telemetry.dfy`): the telemetry point and an `Option` type.
- `Channels` (`channels.dfy`): the bounded channel. `Offer` and `Take` specify
  it, and the class `BoundedChannel` is proved against them.
- `Subscriber` (`subscriber.dfy`): the MQTT message handler and the
  once-a-second metrics tick. The class `MqttSubscriberService` is proved
  against the pure `Handle` and `Tick`. `Replay` runs any interleaving of
  messages, ticks and consumer reads.
- `BatchWriter` (`batch_writer.dfy`): the projection of a point onto the
  seven-column staging table, the empty-batch guard, the per-row cancellation
  check and the column mapping.
- `Processor` (`processor.dfy`): the batching loop. `ExecuteAsync` is a loop
  proved against `Run`, which folds the pure pass function `Step` over the
  environment's answers (`Round`s).
- `Simulator` (`simulator.dfy`): the vehicle. It covers the back-and-forth
  path, the publish delay, the topic string and the progress-log counter.
  `RunAsync` is a loop proved against `AdvanceN`, `Published` (the expected
  message sequence) and `ProgressAfter`.

The progress line in the simulator is guarded by `messageCount++ == 100`. The
comment next to it says "every 100th message". The post-increment makes the
line fire on the 101st successful publish and on every 101st after that. The
model follows the code.

## Model

| member | source | states |
|---|---|---|
| Channels.Offer | IngestionService/Services/MqttSubscriberService.cs:104 | A non-blocking write is accepted exactly when the channel holds fewer items than its capacity. An accepted item is appended at the tail. Queued items never move. The capacity bound is kept. |
| Channels.Take | IngestionService/Services/TelemetryProcessorService.cs:35 | A read yields nothing exactly when the channel is empty. Otherwise it yields the oldest item, and the remaining contents are the rest in order. |
| Channels.OfferAllKeepsPrefix | IngestionService/Services/MqttSubscriberService.cs:104-107 | A burst of writes keeps exactly the writes that fit, in arrival order, and refuses the rest. |
| Channels.DrainIsFifo | IngestionService/Services/TelemetryProcessorService.cs:35 | Reading until empty yields the contents in the order they are held. |
| Channels.FifoWithinProducer | IngestionService/Services/MqttSubscriberService.cs:104 | Up to `capacity` writes from the single producer are read back in the order they were written. |
| Channels.BoundedChannel.constructor | IngestionService/Services/MqttSubscriberService.cs:20 | The channel starts empty, with the positive capacity it was created with. |
| Channels.BoundedChannel.TryWrite | IngestionService/Services/MqttSubscriberService.cs:104 | The answer and the new contents are exactly those of `Offer`. The capacity bound is kept. |
| Channels.BoundedChannel.TryRead | IngestionService/Services/TelemetryProcessorService.cs:35 | The item and the new contents are exactly those of `Take`. |
| Subscriber.Handle | IngestionService/Services/MqttSubscriberService.cs:99-116 | Each message raises errors plus the per-interval count by exactly one. The running total is untouched. Drops rise by at most one. The queue stays within capacity. |
| Subscriber.Tick | IngestionService/Services/MqttSubscriberService.cs:85-86 | The per-interval count is reset to zero and added to the total. Their sum is preserved, the total never decreases, and errors and drops are untouched. |
| Subscriber.DecodeFailureCountsError | IngestionService/Services/MqttSubscriberService.cs:112-116 | A payload that fails to decode adds one error. It changes neither the message count, the drops nor the queue. |
| Subscriber.DecodedPointOfferedOnce | IngestionService/Services/MqttSubscriberService.cs:102-110 | A decoded point raises the message count by one and adds no error. With room, it is appended and no drop is counted. Without room, the queue is unchanged and one drop is counted. |
| Subscriber.ReplayAccounts | IngestionService/Services/MqttSubscriberService.cs:99-116 | Over any interleaving of messages, metrics ticks and reads, errors equal the undecodable messages. Total plus per-interval count equals the decoded messages. Every decoded point is read, still queued, or dropped. The channel stays within capacity, and no counter decreases. |
| Subscriber.Conservation | IngestionService/Services/MqttSubscriberService.cs:104-114 | From boot, messages received equal errors plus points read plus points queued plus drops. Drops never exceed decoded messages. |
| Subscriber.MessagesSplit | IngestionService/Services/MqttSubscriberService.cs:99-116 | Every received message is either undecodable or decodable, never both. |
| Subscriber.DropOnFull | IngestionService/Services/MqttSubscriberService.cs:104-107 | A burst of M decodable messages with no reader fills the channel with the first `capacity` points in order. It counts the other M minus `capacity` as dropped. |
| Subscriber.MqttSubscriberService.constructor | IngestionService/Services/MqttSubscriberService.cs:22-33 | Every counter starts at zero, with the given channel writer. |
| Subscriber.MqttSubscriberService.HandleIncomingMessageAsync | IngestionService/Services/MqttSubscriberService.cs:94-119 | The new counters and channel contents are exactly `Handle` of the old ones, for the decoding of the payload. |
| Subscriber.MqttSubscriberService.ReportMetrics | IngestionService/Services/MqttSubscriberService.cs:85-86 | Returns the per-interval count as it was. The new counters are `Tick` of the old ones. |
| BatchWriter.ToRow | IngestionService/Data/TelemetryBatchWriter.cs:35-43 | The row added for a point conforms to the seven typed columns, in declaration order. Each cell holds the point's field of the same name as its column (`Field`): Timestamp, VehicleId, Latitude, Longitude, Elevation, VibrationFrequency, CompactionValue. |
| BatchWriter.Rows | IngestionService/Data/TelemetryBatchWriter.cs:31-44 | The staging table built for a batch has as many rows as the batch has points. |
| BatchWriter.RowDeterminesStoredFields | IngestionService/Data/TelemetryBatchWriter.cs:35-43 | Two points give the same row if and only if they agree on timestamp, vehicle id, latitude, longitude, elevation, vibration frequency and compaction value. |
| BatchWriter.SiteIdAndSpeedNotWritten | IngestionService/Data/TelemetryBatchWriter.cs:35-43 | Changing a point's site id or speed does not change its row. |
| BatchWriter.RowsPerPoint | IngestionService/Data/TelemetryBatchWriter.cs:31-44 | The staging table has exactly one row per point, in batch order. |
| BatchWriter.ColumnMappingIsIdentity | IngestionService/Data/TelemetryBatchWriter.cs:54-60 | The bulk-copy mapping sends each of the seven staging columns to the destination column of the same name, in order. |
| BatchWriter.WriteResult | IngestionService/Data/TelemetryBatchWriter.cs:18-63 | An empty batch is skipped, and only an empty batch. A non-empty batch throws exactly when the token is cancelled or the store fails. A written table has one row per point, in order. |
| BatchWriter.WriteBatchAsync | IngestionService/Data/TelemetryBatchWriter.cs:16-64 | The outcome is `WriteResult`. With a cancelled token, a non-empty batch throws before any row reaches the store. |
| Processor.FlushDue | IngestionService/Services/TelemetryProcessorService.cs:43 | The flush test never fires on an empty batch. It always fires at 500 points, and on a non-empty batch when the linked token is cancelled. Below 500 points with the token uncancelled it does not fire. |
| Processor.Step | IngestionService/Services/TelemetryProcessorService.cs:28-64 | A pass after the loop has ended changes nothing. The loop keeps running exactly when it was running and this pass neither shut down nor saw a stop. A pass makes at most one writer call, keeps earlier calls, and leaves the batch empty after a call. |
| Processor.WriterCalledIff | IngestionService/Services/TelemetryProcessorService.cs:43 | On a pass that does not shut down, the writer is called exactly when the batch after the read holds 500 points, or is non-empty while the linked token is cancelled. It is called with that batch. |
| Processor.EmptyTimeoutWritesNothing | IngestionService/Services/TelemetryProcessorService.cs:38-43 | A read timeout with an empty batch makes no writer call and leaves the batch empty. |
| Processor.WriterFailureSwallowed | IngestionService/Services/TelemetryProcessorService.cs:45-63 | After any writer call the batch is empty, whether or not the call threw. Only a shutdown request, not a write failure, ends the loop. |
| Processor.StepBounded | IngestionService/Services/TelemetryProcessorService.cs:36-62 | One pass keeps the loop-head invariant. The batch stays below 500, and every writer call gets between 1 and 500 points. |
| Processor.RunBounded | IngestionService/Services/TelemetryProcessorService.cs:26-64 | At every loop head the batch holds fewer than 500 points. No writer call ever gets an empty batch or more than 500 points. |
| Processor.RunningUntilHalt | IngestionService/Services/TelemetryProcessorService.cs:28 | The loop is still running if and only if no pass so far has observed shutdown. |
| Processor.StepKeepsOrder | IngestionService/Services/TelemetryProcessorService.cs:35-62 | One running pass appends exactly the point it read to "points sent, then points pending". |
| Processor.SentThenPendingIsReads | IngestionService/Services/TelemetryProcessorService.cs:26-64 | The batches handed to the writer, concatenated, followed by the pending batch, are exactly the points read, in read order. Nothing is duplicated or retried. |
| Processor.HaltedIsFinal | IngestionService/Services/TelemetryProcessorService.cs:28 | Once the loop has ended, later rounds change nothing. |
| Processor.ShutdownDropsPending | IngestionService/Services/TelemetryProcessorService.cs:35-38 | A shutdown during the read wait ends the loop and leaves the pending batch unwritten. |
| Processor.RunStopsAt | IngestionService/Services/TelemetryProcessorService.cs:28 | A run that has ended by pass k equals the run of its first k passes. |
| Processor.BusyAccumulates | IngestionService/Services/TelemetryProcessorService.cs:36-43 | Fewer than 500 back-to-back reads, with no timer or stop, only accumulate. The batch is exactly the points read, and there are no writer calls. |
| Processor.SizeTriggeredFlush | IngestionService/Services/TelemetryProcessorService.cs:43-49 | 500 back-to-back points make exactly one writer call with those 500 points in order, and leave the batch empty. |
| Processor.TimeTriggeredFlush | IngestionService/Services/TelemetryProcessorService.cs:31-49 | One point followed by a quiet second makes exactly one writer call, with that single point. |
| Processor.ExecuteAsync | IngestionService/Services/TelemetryProcessorService.cs:24-65 | The writer calls, pending batch and stop flag are those of `Run`. Sent batches plus pending equal the points read. The loop stops exactly when shutdown is observed. Every call gets between 1 and 500 points, and pending is below 500. |
| Simulator.Advance | CompactorSimulator/VehicleSimulator.cs:100-123 | One tick moves one step along the current direction. The tick counter stays in [0, 500). The lane either stays or shifts by one. |
| Simulator.AdvanceClosedForm | CompactorSimulator/VehicleSimulator.cs:100-123 | From a turn, n ticks give n / 500 lane shifts and n / 500 reversals. They leave the vehicle n % 500 steps into its current pass. |
| Simulator.BackEveryThousandTicks | CompactorSimulator/VehicleSimulator.cs:100-123 | Every 1000 ticks from a turn, the vehicle is back on its starting latitude and heading, two lanes further over per 1000 ticks. |
| Simulator.TicksStayInRange | CompactorSimulator/VehicleSimulator.cs:112-118 | Between calls, the ticks-since-turn counter stays in [0, 500). |
| Simulator.DelayMs | CompactorSimulator/VehicleSimulator.cs:41 | A rate of 0 has no delay (division by zero). Otherwise the delay takes the sign of the rate. |
| Simulator.DelayIsTruncatedQuotient | CompactorSimulator/VehicleSimulator.cs:41 | The delay is 1000 divided by the rate, truncated toward zero. The milliseconds left over are in [0, abs(rate)). |
| Simulator.DelayExamples | CompactorSimulator/VehicleSimulator.cs:40-41 | 50 Hz gives 20 ms, 3 Hz gives 333 ms, 2000 Hz gives 0 ms and -3 Hz gives -333 ms. |
| Simulator.IntToStringRoundTrip | CompactorSimulator/VehicleSimulator.cs:70 | The decimal rendering of the site id parses back to the same integer and contains no '/'. |
| Simulator.Topic | CompactorSimulator/VehicleSimulator.cs:70 | Joining the five segments with '/' gives exactly `site/{siteId}/vehicle/{vehicleId}/telemetry`, with the site id in decimal. |
| Simulator.SplitJoin | CompactorSimulator/VehicleSimulator.cs:69-70 | Segments without '/', joined with '/', split back into the same segments. |
| Simulator.TopicRoundTrip | CompactorSimulator/VehicleSimulator.cs:70 | The site id and the vehicle id can both be read back from the topic when the vehicle id contains no '/'. |
| Simulator.AfterPublish | CompactorSimulator/VehicleSimulator.cs:84-88 | The progress line is logged exactly when the counter read before the increment is 100, and the counter is then 0. A counter in [0, 100] stays in [0, 100]. |
| Simulator.ProgressEvery101 | CompactorSimulator/VehicleSimulator.cs:84-88 | After n successful publishes the counter is n % 101 and n / 101 progress lines were logged. The n-th publish logs one exactly when n is a multiple of 101. |
| Simulator.VehicleSimulator.constructor | CompactorSimulator/VehicleSimulator.cs:26-36 | The vehicle starts at the configured position, 100 m up, moving forward, at a turn. |
| Simulator.VehicleSimulator.UpdatePosition | CompactorSimulator/VehicleSimulator.cs:100-123 | The new position is `Advance` of the old one. The elevation is untouched. |
| Simulator.ReadingAt | CompactorSimulator/VehicleSimulator.cs:52-63 | The point carries the vehicle's own id and site id. |
| Simulator.PublishedPerSuccess | CompactorSimulator/VehicleSimulator.cs:49-88 | A run publishes exactly one message per successful publish, each on the vehicle's topic and carrying its ids. |
| Simulator.PublishedWhenAllSucceed | CompactorSimulator/VehicleSimulator.cs:49-81 | When every publish succeeds, the k-th message is the reading taken after k + 1 moves, with the k-th tick's inputs, on the vehicle's topic. |
| Simulator.VehicleSimulator.NextMessage | CompactorSimulator/VehicleSimulator.cs:49-70 | The vehicle moves one tick. The message is the reading at the new position with this tick's inputs, on the vehicle's own topic. |
| Simulator.VehicleSimulator.RunAsync | CompactorSimulator/VehicleSimulator.cs:38-98 | A rate of 0 throws before the first tick. Otherwise the vehicle advances once per tick that runs. The published messages are exactly `Published`: for each tick whose publish succeeds, in tick order, the reading taken after that tick's move, on the vehicle's topic. One message is published per success, and `successes / 101` progress lines are logged. |

## Left out

- The MQTT transport, connection setup, subscription and topic filters are left out. So are the SQL connection and the bulk copy. A store failure is the parameter `sqlFails`.
- JSON is left out. Decoding is the function `decode`, with `None` for a payload that throws, and serialising the point is not modelled. A payload `null` decodes to a null point that is offered like any other. The model lets `decode` return any `Some` for it and does not single it out.
- Clocks and timers are left out. The one-second linked timeout, `Task.Delay` and `DateTime.UtcNow` become explicit events (`Round`, `MetricsTick`, `TickInput.now`).
- The message rate at MqttSubscriberService.cs:87 is a floating-point division by elapsed time. It is only logged, and it is left out.
- Logging is left out except for the simulator's progress-line count.
- Concurrency is left out. `Interlocked` operations, the handler and the metrics tick are atomic steps in some interleaving. Concurrent producers are not modelled.
- The counters are 64-bit `long`s in the source. The model uses unbounded naturals, so wrap-around after 2^63 messages is not modelled.
- The model observes a shutdown request only at the read (`Shutdown`) or at the flush test (`stop`). A cancellation that lands between those points inside the writer is folded into those two cases.
- The bounded channel is not created in the modelled files. Its capacity is a parameter, and the model requires it to be positive.
- `Offer` assumes the channel's full mode is `Wait`, where `TryWrite` refuses an item when the channel is full. The `DropOldest` and `DropNewest` modes accept every write and evict a queued item. The model does not cover them.
- The subscriber half and the processor half are proved separately. The processor's reads are the points carried by its `Round`s, and no lemma ties them to the points the subscriber's channel delivers. `Channels.BoundedChannel.TryRead` models the reader side of the channel on its own.
- Floating-point arithmetic is left out. Point fields are reals, and simulator coordinates are whole units (movement steps and lane shifts), so the configured start position is taken in those units. The random sensor readings are inputs (`TickInput`), and the random elevation noise is left out.
- Simulator.VehicleSimulator.RunAsync: a rate in [-1000, -1] gives a negative delay. The model then runs a single tick, because the first `Task.Delay` throws or, for a delay of -1, never returns. The exception itself is not modelled. A rate below -1000 gives a delay of 0, and every tick runs.
- The simulator's cancellation is the length of the tick sequence. Publish failures are `TickInput.publishOk`, and the error line they write is left out.
