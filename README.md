# gosoline core, modelled in Dafny

This project models and proves properties of six pieces of the gosoline Go
application framework.

- **Producer daemon** (`producer_daemon.dfy`, module `ProducerDaemon`). It buffers
  messages written to a stream producer:
  - raw messages collect in an `aggregate` buffer and are folded by a
    marshaller into one carrier message once `AggregationSize` of them are
    waiting;
  - carriers collect in a `batch` buffer and are cut into batches of at most
    `BatchSize` for the output channel;
  - a timer tick (`flushAll`) and `close` force a flush.

  The pure step functions over the `Buffers` value are the specification. The
  class `Daemon` does the same slice surgery on its own fields, and each
  method is proved to follow its step function. `Daemon.Valid` keeps the
  invariant that the dispatched batches followed by the pending batch are
  exactly the carriers that ever entered the batch buffer, and that every
  batch is within bounds. The class `Registry` is the name-keyed
  lookup-or-create table.
- **CloudWatch metric writer** (`metric_writer_cw.dfy`, module `MetricWriter`):
  - a datum's canonical dimension key and id, and its validity check;
  - the filter that turns a batch into CloudWatch data, stamping zero
    timestamps in place;
  - the upload in chunks of 20.
- **Logger** (`logger.dfy`, module `Logging`):
  - level priorities and the level gate;
  - the field-map merge;
  - the copy-returning `WithChannel`, `WithFields` and `WithContext`;
  - `Option`.
- **Exchange-rate updater** (`currency_updater.dfy`, module `CurrencyUpdater`):
  - the historical key format and the refresh decision;
  - the gap filling of historical rates (`fillInGapDays`);
  - the key/value map that `ImportHistoricalExchangeRates` stores.
- **Currency conversion** (`currency_service.dfy`, module `CurrencyService`):
  `HasCurrency`, `ToEur`, `ToUsd`, `ToCurrency` and the exchange-rate lookup.
- **HTTP logging middleware** (`middleware_logger.dfy`, module `HttpLogging`):
  the templated raw path (`getPathRaw`), and the log lines and levels written
  after a request.

Three shared files support these:

- `wrappers.dfy`: `Option` and `Result`.
- `sequences.dfy`: `Flatten` with its lemmas.
- `strings.dfy`: the parts of Go's `sort.Strings`, `strings.Join` and
  `strings.Replace(s, old, new, 1)` that the modelled code relies on.

Modelling choices:

- Integers are unbounded.
- Instants are integer nanoseconds and calendar days are integer day numbers.
- Amounts are reals.
- The clock's "now", the day parser and formatter, the AWS datum validation and
  the marshaller are parameters.

Two behaviours of the daemon worth noting:

- A `Write` dispatches at most one batch, even when the pending batch then
  still holds `BatchSize` carriers or more (`WriteLeavesFullBatchPending`,
  `TwentyFiveMessagesInOneWrite`).
- A forced flush folds at most `AggregationSize` raw messages, not the whole
  aggregate buffer (`ForcedFlushKeepsAggregateRemainder`).

## Model

| member | source | states |
|---|---|---|
| ProducerDaemon.FrontSize | pkg/stream/producer_daemon.go:216-220 | the slice cut from a buffer is the limit or, when the buffer is shorter, the whole buffer |
| ProducerDaemon.AggregateAttributes | pkg/stream/producer_daemon.go:382-388 | the configured attribute maps are kept in order and followed, last, by exactly `{goso.aggregate: true}` |
| ProducerDaemon.BuildAggregateMessage | pkg/stream/producer_daemon.go:382-388 | the carrier is what the marshaller makes of the batch under the configured attributes followed by `{goso.aggregate: true}`, a marshal error included |
| ProducerDaemon.AggregationStep | pkg/stream/producer_daemon.go:197-209 | only the aggregate buffer changes; at most one carrier comes out when aggregation is on, and an error only then |
| ProducerDaemon.FlushAggregateStep | pkg/stream/producer_daemon.go:211-233 | only the aggregate buffer changes and it loses at most AggregationSize messages; at most one carrier comes out |
| ProducerDaemon.AggregationDisabledPassesThrough | pkg/stream/producer_daemon.go:197-200 | with AggregationSize <= 1 the input is returned unchanged and no buffer changes |
| ProducerDaemon.AggregationAccumulates | pkg/stream/producer_daemon.go:202-206 | below the threshold the input is appended to the aggregate buffer and nothing is returned |
| ProducerDaemon.AggregationFoldsExactlyThreshold | pkg/stream/producer_daemon.go:202-232 | at the threshold exactly the first AggregationSize messages go to the marshaller with the attributes plus the aggregate flag; the rest stay buffered in order; the result is the marshalled carrier or the wrapped marshal error |
| ProducerDaemon.FlushAggregateEmptyIsNoop | pkg/stream/producer_daemon.go:211-214 | flushAggregate on an empty buffer returns nothing and changes nothing |
| ProducerDaemon.FlushAggregateRemovesPrefix | pkg/stream/producer_daemon.go:216-232 | flushAggregate removes exactly the first min(AggregationSize, len) messages, keeps the remainder in order, touches nothing else and returns at most one carrier |
| ProducerDaemon.MarshalFailureLosesPrefix | pkg/stream/producer_daemon.go:223-230 | when the marshaller fails, the removed prefix is not put back; Write reports an aggregation error and leaves the batch buffer and the output unchanged |
| ProducerDaemon.FlushBatchEmptyIsNoop | pkg/stream/producer_daemon.go:235-238 | flushBatch on an empty buffer changes nothing |
| ProducerDaemon.FlushBatchConserves | pkg/stream/producer_daemon.go:235-250 | flushBatch pushes exactly the front min(BatchSize, len) carriers as one new batch and keeps the rest; dispatched batches followed by the pending buffer are unchanged; batch bounds are preserved |
| ProducerDaemon.FlushBatchStep | pkg/stream/producer_daemon.go:235-250 | aggregate buffer and closed flag unchanged; one batch is dispatched iff the pending batch is non-empty, and it loses at most BatchSize carriers |
| ProducerDaemon.WriteStep | pkg/stream/producer_daemon.go:153-174 | the closed flag is kept; at most one batch is dispatched; on an error neither the pending batch nor the dispatched batches change |
| ProducerDaemon.FlushAllStep | pkg/stream/producer_daemon.go:252-264 | the closed flag is kept; at most one batch is dispatched; on an error neither the pending batch nor the dispatched batches change |
| ProducerDaemon.CloseStep | pkg/stream/producer_daemon.go:266-276 | the daemon ends closed, and Close fails exactly when its final flush fails |
| ProducerDaemon.WriteConserves | pkg/stream/producer_daemon.go:153-174 | Write dispatches a batch iff aggregation succeeded and the batch buffer reached BatchSize; it dispatches at most one, and that one holds exactly BatchSize; all carriers are kept in arrival order; it errs iff aggregation failed |
| ProducerDaemon.WriteLeavesFullBatchPending | pkg/stream/producer_daemon.go:164-171 | five messages written at once with BatchSize 2 dispatch one batch of two and leave three pending |
| ProducerDaemon.WriteWithoutAggregation | pkg/stream/producer_daemon.go:160-171 | with aggregation disabled one write appends its input in order to dispatched-plus-pending, and every batch it dispatches is full |
| ProducerDaemon.WritesWithoutAggregationConserve | pkg/stream/producer_daemon.go:153-174 | any sequence of writes without aggregation loses and duplicates nothing: dispatched-plus-pending equals the old contents followed by all inputs in order, and each new batch holds exactly BatchSize |
| ProducerDaemon.ForcedFlushKeepsAggregateRemainder | pkg/stream/producer_daemon.go:252-261 | a forced flush leaves an aggregate buffer longer than AggregationSize non-empty, holding its tail |
| ProducerDaemon.ForcedFlushDispatchesShortBatch | pkg/stream/producer_daemon.go:252-264 | a forced flush dispatches a short pending batch as it is; a second flush without writes changes nothing |
| ProducerDaemon.FlushAllConserves | pkg/stream/producer_daemon.go:252-264 | a forced flush hands every carrier it produced on to the output in order, dispatches at most one bounded batch, and errs iff the fold failed |
| ProducerDaemon.CloseAlwaysCloses | pkg/stream/producer_daemon.go:266-276 | close closes the output channel whether or not the forced flush failed, and reports the flush error wrapped |
| ProducerDaemon.TwentyFiveMessagesInOneWrite | pkg/stream/producer_daemon.go:164-171 | 25 messages with BatchSize 10 give one batch from the write and one from each of the next two ticks: 10, 10, 5 |
| ProducerDaemon.Daemon.constructor | pkg/stream/producer_daemon.go:105-117 | a new daemon has empty buffers and an open, empty output channel |
| ProducerDaemon.Daemon.ApplyAggregation | pkg/stream/producer_daemon.go:197-209 | the new state and the result are those of AggregationStep; the invariant is kept |
| ProducerDaemon.Daemon.FlushAggregate | pkg/stream/producer_daemon.go:211-233 | the new state and the result are those of FlushAggregateStep; the invariant is kept |
| ProducerDaemon.Daemon.FlushBatch | pkg/stream/producer_daemon.go:235-250 | the new state is that of FlushBatchStep; the invariant is kept |
| ProducerDaemon.Daemon.Write | pkg/stream/producer_daemon.go:153-174 | the new state and the error are those of WriteStep; the carriers handed on are appended to the conserved sequence |
| ProducerDaemon.Daemon.WriteOne | pkg/stream/producer_daemon.go:149-151 | exactly a Write of the one message |
| ProducerDaemon.Daemon.FlushAll | pkg/stream/producer_daemon.go:252-264 | the new state and the error are those of FlushAllStep; the invariant is kept |
| ProducerDaemon.Daemon.Close | pkg/stream/producer_daemon.go:266-276 | the new state and the error are those of CloseStep, and the output channel is closed |
| ProducerDaemon.Registry.constructor | pkg/stream/producer_daemon.go:24-25 | the registry starts empty |
| ProducerDaemon.Registry.Reset | pkg/stream/producer_daemon.go:56-61 | the registry is empty afterwards |
| ProducerDaemon.Registry.Provide | pkg/stream/producer_daemon.go:63-79 | a known name returns the stored entry, even a null one, without error and without change; a failed construction stores null and returns the wrapped output error; otherwise a fresh daemon with the given name, settings and marshaller, empty buffers and an open, empty output is stored and returned |
| MetricWriter.FlatsAnyName | pkg/mon/metric_writer_cw.go:50-53 | whichever dimension the map iteration yields first, the same multiset of "name:value" strings results |
| MetricWriter.DimensionKeyIsSortedJoin | pkg/mon/metric_writer_cw.go:55-56 | every sorted arrangement of the flattened dimensions joins with "-" to the same key |
| MetricWriter.FlattenDimensions | pkg/mon/metric_writer_cw.go:48-53 | the loop collects exactly the "name:value" strings of all dimensions, in any order |
| MetricWriter.MetricDatum.DimensionKey | pkg/mon/metric_writer_cw.go:47-59 | the key is the canonical sorted join, whatever the iteration order |
| MetricWriter.MetricDatum.Id | pkg/mon/metric_writer_cw.go:43-45 | the id is the metric name, ":" and the dimension key |
| MetricWriter.MetricDatum.IsValid | pkg/mon/metric_writer_cw.go:61-75 | no error iff name, priority and unit are all set; otherwise the first missing one in the order name, priority, unit |
| MetricWriter.Stamp | pkg/mon/metric_writer_cw.go:168-170 | a zero timestamp becomes now; all else stays |
| MetricWriter.GetPriority | pkg/mon/metric_writer_cw.go:111-113 | the writer accepts high priority, which is above low |
| MetricWriter.Admit | pkg/mon/metric_writer_cw.go:163-209 | a datum is kept iff it is high priority, its stamped time is within [now - 1 week, now + 1 hour], its dimension names and values are non-empty and it passes validation; a kept datum carries the stamped time |
| MetricWriter.Surviving | pkg/mon/metric_writer_cw.go:163-210 | the filter never produces more data than the batch holds |
| MetricWriter.SurvivorsAreValid | pkg/mon/metric_writer_cw.go:172-207 | every surviving datum is inside the window, has complete dimensions and passes validation |
| MetricWriter.SurvivingConcat | pkg/mon/metric_writer_cw.go:163-210 | each datum is judged on its own and survivors keep batch order |
| MetricWriter.SurvivingDropsLowPriorityAndStale | pkg/mon/metric_writer_cw.go:164-194 | a low-priority, out-of-window or incompletely dimensioned datum contributes nothing |
| MetricWriter.CheckDimensions | pkg/mon/metric_writer_cw.go:179-194 | the dimension loop reports complete iff no dimension name or value is empty |
| MetricWriter.AdmitDatum | pkg/mon/metric_writer_cw.go:164-209 | one loop round keeps what Admit says of the datum's old value, and stamps a high-priority zero timestamp in place |
| MetricWriter.BuildMetricData | pkg/mon/metric_writer_cw.go:158-213 | the result is the surviving data of the batch's old values, in order; every high-priority datum with a zero timestamp now has now, whether kept or not; all other timestamps are unchanged |
| MetricWriter.FirstChunkLength | pkg/mon/metric_writer_cw.go:136-140 | a chunk holds 20 data, or all that remain when fewer |
| MetricWriter.PutChunks | pkg/mon/metric_writer_cw.go:135-153 | the upload loop sends exactly ChunksOf of the data; a failing call does not stop later ones |
| MetricWriter.Namespace | pkg/mon/metric_writer_cw.go:125 | project, environment, family and application joined by "/" |
| MetricWriter.ChunksOf | pkg/mon/metric_writer_cw.go:135-153 | there are ceil(len / 20) requests |
| MetricWriter.ChunksOfCoverData | pkg/mon/metric_writer_cw.go:135-145 | the chunks, concatenated, are the data in order, without loss or repetition |
| MetricWriter.ChunksOfSizes | pkg/mon/metric_writer_cw.go:135-145 | every request is in the namespace with 1 to 20 data, and all but the last hold exactly 20 |
| MetricWriter.Write | pkg/mon/metric_writer_cw.go:119-156 | disabled or empty: no request and no datum changed; otherwise the requests are the chunks of the surviving data under the project namespace, and zero timestamps of high-priority data are stamped |
| MetricWriter.WriteOne | pkg/mon/metric_writer_cw.go:115-117 | exactly a Write of the one datum |
| Logging.LevelPriority | pkg/mon/logger.go:22-32 | a known level gets its table priority, an unknown one 0 |
| Logging.LevelOrder | pkg/mon/logger.go:22-32 | trace < debug < info < warn < error strictly, and an unknown level ranks like trace |
| Logging.GateMonotone | pkg/mon/logger.go:200-205 | a gate that lets a level through lets every higher level through |
| Logging.Passes | pkg/mon/logger.go:200-205 | a configured level at or below trace lets every message through, one above error none |
| Logging.UnknownLevelOnlyAtTrace | pkg/mon/logger.go:200-205 | a message at an unknown level passes iff the logger is at trace level or below |
| Logging.Prepare | pkg/mon/logger.go:266-271 | an error value becomes its message string; other modelled values are kept; the result is never an error |
| Logging.PutAll | pkg/mon/logger.go:255-261 | one map loop writes every source entry, prepared, over the target |
| Logging.MergeMapStringInterface | pkg/mon/logger.go:252-264 | the fresh map is the merge of receiver and input |
| Logging.MergeUnion | pkg/mon/logger.go:252-264 | the merge's keys are the union of both maps; the input's value wins a conflict; all values are prepared |
| Logging.MergeNothing | pkg/mon/logger.go:207-208 | merging an empty field map keeps the keys, with prepared values |
| Logging.MergeAssociative | pkg/mon/logger.go:252-264 | two merges in a row equal one merge of the merged inputs, since preparing is idempotent |
| Logging.ResolveAllKeys | pkg/mon/logger.go:159-162 | a key is in the context fields iff it was there before or some resolver supplies it |
| Logging.LastResolverWins | pkg/mon/logger.go:159-162 | the last resolver that supplies a key decides its value |
| Logging.ApplyOptionsConcat | pkg/mon/logger.go:134-142 | applying a + b is applying a, then b only if a did not fail: options after the first error are never applied, and those before stay applied |
| Logging.ApplyOptionsSucceeds | pkg/mon/logger.go:134-142 | options that never fail report no error |
| Logging.Logger.constructor | pkg/mon/logger.go:99-118 | info level, console format, "15:04:05.000", default channel, empty field maps, no resolvers |
| Logging.Logger.Copy | pkg/mon/logger.go:120-132 | a fresh logger with the same state |
| Logging.Logger.WithChannel | pkg/mon/logger.go:144-149 | a fresh copy differing only in its channel; the receiver is unchanged |
| Logging.Logger.WithFields | pkg/mon/logger.go:167-172 | a fresh copy whose fields are the merge of the old fields with the new ones; the receiver is unchanged |
| Logging.Logger.WithContext | pkg/mon/logger.go:151-165 | a nil context returns the receiver itself; otherwise a fresh copy carrying the context and the context fields merged from every resolver in order |
| Logging.Logger.Log | pkg/mon/logger.go:200-228 | nothing iff the level is below the configured one; otherwise the entry carries the level, message, error and the metadata with the call's fields merged in |
| Logging.Logger.Info | pkg/mon/logger.go:174-176 | an info entry iff the logger is at info level or below |
| Logging.Logger.Debug | pkg/mon/logger.go:178-184 | a debug entry iff the logger is at debug level or below; the early check agrees with the gate |
| Logging.Logger.Warn | pkg/mon/logger.go:186-188 | a warn entry iff the logger is at warn level or below |
| Logging.Logger.Error | pkg/mon/logger.go:190-198 | an entry iff the level gate passes error; the whole entry: level error, the message, the error, and the logger's fields merged with the "stacktrace" field |
| Logging.Logger.Option | pkg/mon/logger.go:134-142 | the new state and the error are those of applying the options in order up to the first error |
| CurrencyUpdater.HistoricalRateKey | pkg/currency/updater.go:198-200 | the key is the formatted day, "-", then the currency |
| CurrencyUpdater.HistoricalRateKeyInjective | pkg/currency/updater.go:198-200 | with a fixed-width one-to-one day format a key names exactly one day and one currency |
| CurrencyUpdater.NeedsRefresh | pkg/currency/updater.go:96-121 | no refresh iff a date is stored and it is at most 8 hours old |
| CurrencyUpdater.NeedsRefreshBoundary | pkg/currency/updater.go:112-118 | a date exactly 8 hours old is fresh; one nanosecond older is not |
| CurrencyUpdater.StartEndAreExtremes | pkg/currency/updater.go:212-217 | when no input day is the zero day, startDate is the earliest input day and endDate the latest |
| CurrencyUpdater.DailyRatesLaterWins | pkg/currency/updater.go:218 | every input day is a key of dailyRates, and the last content for a day wins |
| CurrencyUpdater.DailyRatesKeys | pkg/currency/updater.go:218 | dailyRates has no key that is not an input day |
| CurrencyUpdater.IndexDays | pkg/currency/updater.go:207-219 | the first loop succeeds iff every day parses, and then yields the start date, the end date and dailyRates |
| CurrencyUpdater.AppendGapDays | pkg/currency/updater.go:221-244 | the second loop returns the input followed by exactly what GapLoop appends |
| CurrencyUpdater.FillInGapDays | pkg/currency/updater.go:202-245 | an error iff some day does not parse; otherwise the input is an unchanged prefix of the result, followed by the gap contents |
| CurrencyUpdater.FillInGapDaysEmpty | pkg/currency/updater.go:221-231 | empty input gets nothing appended |
| CurrencyUpdater.GapDaysMembers | pkg/currency/updater.go:230-239 | a day is a gap day iff it is in the range and has no rates |
| CurrencyUpdater.GapDaysIncreasing | pkg/currency/updater.go:224-241 | gap days come in strictly increasing order |
| CurrencyUpdater.LastPresentSpec | pkg/currency/updater.go:233-239 | the copied day is the latest day with rates at or before the gap day, from the start date on |
| CurrencyUpdater.GapLoopIsExpected | pkg/currency/updater.go:224-242 | from any point of the gap loop, the appended contents are one copy per remaining gap day below the bound, in order |
| CurrencyUpdater.FillInGapDaysSpec | pkg/currency/updater.go:202-245 | for valid input the start day has rates, and the appended contents are one copy of the last present day per missing day in [start, min(end, start + 180)), under the gap date |
| CurrencyUpdater.GapLoopFromStart | pkg/currency/updater.go:221-242 | the loop started at the start date appends the reference copies |
| CurrencyUpdater.GapLoopParses | pkg/currency/updater.go:230-236 | every appended content carries a formatted day as its time |
| CurrencyUpdater.FilledContentParses | pkg/currency/updater.go:152-168 | when formatted days parse, the filled contents all parse, so the key/value loop cannot fail on them |
| CurrencyUpdater.DayPairs | pkg/currency/updater.go:164-167 | each rate of a day is paired with its historical key, in rate order |
| CurrencyUpdater.PutDayRates | pkg/currency/updater.go:164-167 | the inner loop writes exactly the day's pairs, in order |
| CurrencyUpdater.PutLastWriteWins | pkg/currency/updater.go:157-168 | every written key is present and holds the value of its last write |
| CurrencyUpdater.PutOnlyWrittenKeys | pkg/currency/updater.go:157-168 | no key is present that was not written |
| CurrencyUpdater.HistoricalKeyValues | pkg/currency/updater.go:157-168 | an error iff a content's time does not parse; otherwise the map of all pairs written in nested-loop order |
| CurrencyUpdater.ImportHistoricalKeyValues | pkg/currency/updater.go:152-168 | a gap-filling error comes first; then the key/value map of the filled contents, or a parse error iff a filled content does not parse |
| CurrencyService.Divide | pkg/currency/service.go:60 | the quotient is finite iff the rate is non-zero, and then it times the rate is the value |
| CurrencyService.Multiply | pkg/currency/service.go:90 | the product is finite iff the amount is, and then it is the product |
| CurrencyService.HasCurrency | pkg/currency/service.go:40-46 | "EUR" is true; any other currency fails iff the store fails, else it is whether the store holds it |
| CurrencyService.HasCurrencyEurIgnoresStore | pkg/currency/service.go:41-43 | the answer for "EUR" is the same for every store |
| CurrencyService.GetExchangeRate | pkg/currency/service.go:93-104 | an error iff the store fails on the key; a missing key is 0 with no error |
| CurrencyService.ToEur | pkg/currency/service.go:49-61 | the identity for "EUR"; otherwise an error iff the lookup fails, else the value divided by the rate |
| CurrencyService.ToUsd | pkg/currency/service.go:64-70 | the identity for "USD"; otherwise ToCurrency into "USD" |
| CurrencyService.ToCurrency | pkg/currency/service.go:73-91 | the identity when the currencies agree; a target lookup error first; then the euro conversion's error; else the euro value times the target rate |
| CurrencyService.TargetRateErrorFirst | pkg/currency/service.go:78-88 | when both lookups fail, the error is the target's |
| CurrencyService.ToCurrencyRoundTrip | pkg/currency/service.go:73-91 | with stored non-zero rates, converting there and back gives the original value |
| CurrencyService.MissingCurrencyConvertsSilently | pkg/currency/service.go:93-103 | a currency absent from the store converts without error: out of it to a non-finite amount, into it to 0 |
| CurrencyService.ToCurrencyIntoEurNeedsStoredRate | pkg/currency/service.go:73-91 | ToCurrency into "EUR" reads a stored rate for "EUR", so without one it gives 0 while ToEur gives the real value |
| HttpLogging.GetPathRaw | pkg/apiserver/middleware_logger.go:73-83 | the loop result is RawPath: each parameter in order rewrites the path the earlier ones left |
| HttpLogging.RawPathNoParams | pkg/apiserver/middleware_logger.go:73-83 | without parameters the raw path is the URL path |
| HttpLogging.RawPathRewritesFirstOccurrence | pkg/apiserver/middleware_logger.go:76-80 | a parameter with any non-empty value replaces only the first occurrence of that value with ":" and its name |
| HttpLogging.RawPathUnmatchedParam | pkg/apiserver/middleware_logger.go:79 | a parameter whose value does not occur leaves the path unchanged |
| HttpLogging.RawPathEmptyValuePrepends | pkg/apiserver/middleware_logger.go:79 | a parameter with an empty value puts ":" and its name in front of the path |
| HttpLogging.ErrorLevel | pkg/apiserver/middleware_logger.go:61-70 | bind and render errors give warn, and all others give error, both directions |
| HttpLogging.ErrorLine | pkg/apiserver/middleware_logger.go:62-69 | the line for one error has the level ErrorLevel chooses |
| HttpLogging.RequestLogLines | pkg/apiserver/middleware_logger.go:56-70 | no errors: exactly one info line; otherwise one line per error in order, with its level; never a debug or trace line |
| HttpLogging.CombinedFlagsAreErrors | pkg/apiserver/middleware_logger.go:62-68 | any error type that carries the bind or the render flag together with some other flag matches no case and is logged as an error |

## Left out

- Goroutine orchestration of the producer daemon is not modelled:
  - `Run`, `tickerLoop`, `outputLoop`, the coffin supervisor, the mutex and the
    ticker reset/stop;
  - the lock only makes each write and tick atomic, which the sequential
    model has by construction.
- The output channel is an append-only sequence of batches with a closed flag
  (`outBatches`, `outClosed`), because the channel's source is not part of
  this model. Nothing reads `outClosed`: a push after `Close` (a later `Write`
  or `FlushBatch`) is recorded like any other and counted as handed on; the
  model does not say what the real channel does with a send after close.
- Metric writes of the producer daemon (`writeMetric*`, the `IdleDuration`
  clamp, the default metrics) are left out: they do not affect the buffers.
- `NewProducerDaemon` reads configuration and creates the output. Only the
  output's failure is modelled, as the `outputError` parameter of
  `Registry.Provide`; configuration reading is I/O.
- `ProducerDaemon.Registry.Provide`: the model does not capture the package
  lock or the global variable. It models the map it guards.
- `MetricWriter.BuildMetricData`: reads the clock once (the parameter `now`),
  while the source reads it three times (window start, window end, stamp).
- MetricWriter CloudWatch calls are left out. `datum.Validate()` of the AWS SDK
  is the `validate` parameter. A `PutMetricData` call is only recorded as a
  request, because its failure is merely logged in the source.
- The error branch after `buildMetricData` in `cwWriter.Write` is left out,
  because `buildMetricData` always returns a nil error. The final debug line is
  also left out.
- `Logging.Prepare`: handles errors and leaves the other modelled values
  (booleans, integers, strings, times, nil) unchanged. The reflection cases for
  nested maps, pointers, structs and slices are not modelled, because field
  values here are a closed datatype without nesting.
- Logging formatters, hooks, output writes and `fmt.Sprintf` of arguments are
  left out (I/O and formatting). A call that passes the gate returns the entry
  that would be formatted.
- `Logging.Logger.Error`: the stack trace is a parameter, not computed, because
  it depends on the Go runtime.
- The currency updater's HTTP fetching, XML unmarshalling, store writes
  (`Put`, `PutBatch`), logging and `EnsureRecentExchangeRates` are left out,
  because they are I/O. The refresh decision and the key/value map are
  modelled.
- `Content.GetTime` and date formatting are the `parse` and `format`
  parameters, because their source is not part of this model. Calendar days
  are integer day numbers; `AddDate(0, 0, 1)` is `+ 1`.
- `CurrencyService`: the store is a map from currency to rate plus a set of
  keys whose access fails. IEEE float behaviour is not modelled: amounts are
  reals, and division by a zero rate is the `NonFinite` amount.
- The gin plumbing around the middleware is left out: request fields, timing,
  client IP and query parsing. A log line is its level, message and error.
