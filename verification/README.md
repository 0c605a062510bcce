# Verified model of the app analytics platform

A Dafny model of the platform's event pipeline, its analytics queries and its benchmark harness, with
proofs of what they promise. `dafny verify dfyconfig.toml` checks everything.

## What is modelled

**The delivery pipeline.** Inputs are validated and published with confirmation (`Events`, `Publishing`);
a consumer hands valid deliveries to the worker and rejects the rest (`Consumers`); the worker batches
them, inserts each batch with bounded retries and then acks or rejects it (`Workers`, `EventRepositories`).
There are two layers.

* `FlushMachine` describes one flush as a machine of single steps: insert attempts, waits, acks, rejects. The
  class `Workers.Worker` is the imperative form of the same code; its `Flush` is proved to be a run of that
  machine, so every law of the machine is a law of the method. What the database driver, the channel and the
  contexts answer is given as scripts, for every script; the result of each call is decided by them.
* `Pipeline` is the whole concurrent system as a step relation: publishers, broker (queue, unsettled
  deliveries by tag, dead-letter queue, prefetch window), the client library's buffer, the receiver goroutine,
  the bounded channel with its closed flag, the `select` loop of `Run` with its timer, both shutdown
  paths with the deferred drain, the two contexts, the clock, the store, and a crash or restart at any point.
  The flushes inside it are steps of the flush machine. An action carries the choices of its environment:
  which ready arm of a `select` fires, what an insert reports and which of its rows really landed (a close error
  after a good send reports failure although the rows are stored), whether an ack, reject or stop
  reports an error and whether it took effect all the same.
  `PipelineInvariants` proves one invariant over every step; `PipelineSafety`, `PipelineCourse`, `PipelineProgress` and
  `PipelineSizing` draw the theorems from it, for every list of actions.

The broker follows AMQP 0-9-1, section 3.1.7 (at most `prefetch` unsettled deliveries) and section 3.1.8
(unsettled deliveries return when a channel closes). Dead-lettering is a RabbitMQ extension.

**The analytics queries.** `Calendar` and `Analytics` model dates (the full-date of RFC 3339, section 5.6, with
the day limits of section 5.7 and the leap years of its Appendix C) and the filters made of them; `Queries`
and `Rankings` model the two repositories, which grow conditions and positional arguments step by step, against a
table given as a list of rows; `AnalyticsServices` is the two services from raw texts to answers.

**The benchmark.** `Medians`, `Runners` and `Generators` model the order statistics, the nested measuring
loops with their clock readings, and the generated events. `EndToEnd` joins the parts.

Instants and durations are whole ticks, an instant of the calendar counted in nanoseconds from
0001-01-01T00:00:00Z; the worker's clock has no fixed unit. Identifiers
are opaque numbers with equality and an order, 0 standing for the nil UUID. A delivery's Ack and Reject
are known by its tag; `rejectable` says whether Reject is set.

## Where the source does not meet its own words

* The documentation says the worker acknowledges only after a successful insert
  (docs/reliability.md). With no insert attempts configured the retry loop is empty and the batch is acked
  unstored: `FlushMachine.StoredBeforeAckIffAttempts` gives the exact condition, and all pipeline theorems ask for at
  least one attempt (`Sound`), as the production constants do.
* A nil result of `Run` covers every delivery Receive returned only if prefetch fits the channel:
  `PipelineSizing.NothingDroppedIffPrefetchFits`, with a run that drops one otherwise.
* The median rate is the rate of the median duration for an odd number of runs; for an even number only
  when the two middle durations agree: `Medians.EvenMedianReciprocal`, with an example in `Medians.EvenMedianDiffers`.
* Stored and dead-lettered are not exclusive: an insert may commit and report failure, so nothing here says they are.

## Model

| member | source | states |
|---|---|---|
| Events.TrimSpaceSplits | internal/event/service.go:85 | trimming takes exactly the white space off both ends, and leaves nothing exactly for blank text |
| Events.ValidateIffWellFormed | internal/event/service.go:64-98 | the ordered checks of Validate accept exactly the well-formed events |
| Events.ValidateGivesFirstFailing | internal/event/service.go:64-98 | the error of Validate is that of the first check, in the source's order, that the event fails |
| Events.InputErrorIsFirstFailing | internal/event/service.go:78-98 | the same for the checks of an input |
| FlushMachine.DedupKeepsIds | internal/worker/worker.go:194-202 | dedup keeps every id of the batch exactly once and no other |
| FlushMachine.DedupKeepsFirstOccurrences | internal/worker/worker.go:194-202 | what dedup keeps are first occurrences, in the order of the batch |
| FlushMachine.TotalDelayClosedForm | internal/worker/worker.go:212-213 | the waits after n failed attempts add up to backoff times (2^n - 1) |
| FlushMachine.FlushSettlesWholeBatch | internal/worker/worker.go:189-255 | a finished flush acked its whole batch in order or rejected all it could; success means every ack went well after every id was stored |
| FlushMachine.RetryCounts | internal/worker/worker.go:204-234 | acked means only the last insert succeeded; rejected means exactly the configured number of inserts, all failed |
| FlushMachine.RetryArithmetic | internal/worker/worker.go:204-224 | a flush of k inserts waited backoff * (2^(k-1) - 1) in all, none of it after the last attempt |
| FlushMachine.FlushDuplicateBound | internal/worker/worker.go:194-224 | no id gains more rows in a flush than the attempts allowed, and only ids of the batch gain any |
| FlushMachine.ExactStoreAddsOneRowPerId | internal/worker/worker.go:194-224 | if inserts commit exactly when they report success, a successful flush adds one row for each id, the first occurrences in order, and a rejected one none |
| FlushMachine.StoredBeforeAckIffAttempts | internal/worker/worker.go:206-234 | every successful flush of a non-empty batch has stored what it acked exactly when at least one attempt is configured |
| FlushMachine.FailedTagsExactly | internal/worker/worker.go:226-237 | the acknowledgement errors name exactly the deliveries whose ack failed |
| FlushMachine.RejectErrorsExactly | internal/worker/worker.go:243-255 | the reject errors name exactly the deliveries without a reject operation and those whose reject failed |
| FlushMachine.NoAttemptsAcksUnstored | internal/worker/worker.go:206-234 | the run in which no attempts are configured and a batch is acked without a row |
| EventRepositories.EventRepository.InsertBatch | internal/clickhouse/event_repository.go:28-71 | for every script of driver answers: no error exactly when the list is empty or prepare, every append, send and close work; otherwise the error of the first step that fails, joined by that of the close; the rows, in UTC and order, are stored as soon as the send works, before it none, after a failed send any part |
| Workers.Worker.Unique | internal/worker/worker.go:194-202 | the loop with a set of ids seen computes the dedup of the batch |
| Workers.Worker.Persist | internal/worker/worker.go:204-218 | the retry loop succeeds exactly when the driver's answers to come let one of the allowed attempts work before a wait is cut short; it is a run of the machine, makes one InsertBatch call for each attempt counted, and waits exactly the delays |
| Workers.Worker.Retry | internal/worker/worker.go:207-217 | one turn of the loop is one insert, and a wait when it failed and was not the last |
| Workers.Worker.WaitForRetry | internal/worker/worker.go:257-266 | the whole delay is waited unless the context can be cancelled and is |
| Workers.Worker.AckBatch | internal/worker/worker.go:226-237 | every delivery is acked in order whatever earlier acks reported, each call reports what the channel replies, and exactly the failed ones are in the error |
| Workers.Worker.RejectBatch | internal/worker/worker.go:243-255 | every delivery with a reject operation is rejected in order, and the error names exactly those without one and those whose reject failed |
| Workers.Worker.Flush | internal/worker/worker.go:189-241 | the result is decided by the driver's answers and the channel's replies to come: success exactly for an empty batch or when an attempt works in time and every ack does, a persistence error exactly when none works; the whole call is a run of the flush machine; the errors are those of the calls made |
| Workers.Worker.FinishedFlush | internal/worker/worker.go:219-241 | the branch taken after the retry loop decides between acks of all and rejects of all |
| Consumers.RequestsTakeEffectOnce | internal/rabbitmq/consumer.go:127-159 | after any Stop and Close calls in any order the subscription is cancelled once, and channel and connection are closed once if there was a Close |
| Consumers.Consumer.Receive | internal/rabbitmq/consumer.go:71-117 | returns the first valid delivery after rejecting exactly the poison before it in order; otherwise it says why it gave up; a context nobody cancels never ends it, a cancelled one takes nothing, and no turn begins after cancellation |
| Consumers.Consumer.Stop | internal/rabbitmq/consumer.go:127-139 | cancels at most once, and only the first call can fail |
| Consumers.Consumer.Close | internal/rabbitmq/consumer.go:142-159 | attempts cancel, channel close and connection close whatever fails, and reports each failure |
| Publishing.Publisher.Publish | internal/rabbitmq/publisher.go:76-109 | no error exactly when the open publisher's message was confirmed; exactly this message, or none, reaches the broker, none once closed; each error belongs to the first step that fails |
| Publishing.Publisher.Close | internal/rabbitmq/publisher.go:112-121 | the connection is closed once however often Close is called |
| Publishing.Ingest | internal/event/service.go:33-61 | success exactly when the input is valid, the application exists and the publication is confirmed; what is returned and published carries the input field by field: new id, same application, type, platform, revenue and instant, offset zero, country without the white space at its ends; each error belongs to the first step that fails |
| Publishing.EventCarriesInput | internal/event/service.go:47-55 | the event made of an input carries it field by field |
| Publishing.TrimmedInputValidatesAlike | internal/event/service.go:33-40 | checking the trimmed country gives the verdict of the given one |
| Publishing.PublishedPassesConsumer | internal/event/service.go:33-76 | every event Ingest publishes passes the consumer's check unchanged and is its own row |
| PipelineInvariants.InvStep | internal/worker/worker.go:85-255 | every step of every component keeps control, order, timer, calls, storage, tags, broker and window invariants |
| PipelineInvariants.Reachable | internal/worker/worker.go:85-255 | the invariant holds after any list of actions from the initial state |
| PipelineInvariants.AttemptKeeps | internal/worker/worker.go:206-218 | an insert that succeeds, fails, or commits and reports failure keeps it |
| PipelineInvariants.SettleKeeps | internal/worker/worker.go:226-255 | an ack or reject keeps it, whether or not it reports the truth |
| PipelineSafety.AckImpliesStored | internal/worker/worker.go:189-241 | in every reachable state whatever was acked, as a call or at the broker, has a row with its id |
| PipelineSafety.NoConfirmedEventLost | internal/worker/worker.go:85-255 | a confirmed event's message is queued, held unsettled, dead-lettered, or its id is stored, over any runs, failures, crashes and redeliveries |
| PipelineSafety.DeliveriesConservedInOrder | internal/worker/worker.go:108-187 | what Receive returned is, in order, the flushed batches, the batch, the discarded, the channel, the held one and the dropped one, with nothing repeated or missing |
| PipelineSafety.SettledAtMostOnce | internal/worker/worker.go:189-255 | settlement calls follow the deliveries one by one with rising tags; what was not called is still unsettled at the broker |
| PipelineSafety.FlushLeavesNothingBehind | internal/worker/worker.go:226-255 | after a flush one settlement was attempted for every delivery of every flushed batch |
| PipelineSafety.HandFitsPrefetch | internal/worker/worker.go:172-186 | batch, channel, held and buffered deliveries never exceed the prefetch window |
| PipelineSafety.NeverBlocked | internal/worker/worker.go:172-186 | with prefetch at most the capacity the non-blocking send always succeeds and nothing is dropped |
| PipelineSafety.InsertsAreBounded | internal/worker/worker.go:149-158 | every insert, the shutdown one included, gets between one and a full batch of events with distinct ids |
| PipelineSafety.NilMeansAckedAndStored | internal/worker/worker.go:146-158 | if Run returns nil every returned delivery was acked and stored, except one dropped by a lost send |
| PipelineSafety.GracefulShutdownLosesNothing | internal/worker/worker.go:146-187 | with prefetch at most the capacity there is no exception |
| PipelineSafety.StoredRowsAreValid | internal/rabbitmq/consumer.go:71-117 | every delivery returned and every row stored is well formed, in every reachable state |
| PipelineSafety.DuplicatesAreBounded | internal/worker/worker.go:194-224 | over all runs the rows of an id are at most the attempts allowed times the flushed batches that held it |
| PipelineSafety.TimerAtLoopHead | internal/worker/worker.go:102-144 | at every loop head the batch is short of full, the timer arm is live exactly for a non-empty batch, and its deadline belongs to this batch |
| PipelineSafety.OneBatch | internal/worker/worker.go:108-144 | until the next flush fewer deliveries are taken than would fill the batch, and it only grows |
| PipelineSafety.TimerFlushIsNotEarly | internal/worker/worker.go:124-144 | a timer flush comes no earlier than the timeout after the batch's first delivery |
| PipelineCourse.RunLeavesLoopForCause | internal/worker/worker.go:108-161 | over all runs: Run is outside its loop only if its context was cancelled, a flush failed (all its inserts, or a settlement call), or the receiver closed its channel after a lost connection or a failed reject; and the receiver gives up only for such a cause |
| PipelineCourse.UndisturbedRunGoesOn | internal/worker/worker.go:108-187 | in a run without any of these Run is always at the loop head or in a flush it comes back from, and the receiver at work |
| PipelineCourse.RunReturnsNilExactly | internal/worker/worker.go:111-120 | Run returns nil exactly when no flush failed, Stop reported no error and the receiver's error was not read while the context was live |
| PipelineCourse.RunFlushesBeforeReturn | internal/worker/worker.go:111-158 | unless a flush failed or the receiver's error was read while the context was live, Run flushes everything it holds before it returns, also after a failed Stop or when the receiver had finished by itself |
| PipelineCourse.AfterTheFlush | internal/worker/worker.go:131-144 | a successful flush in the loop is followed by the loop head with an empty batch and the timer at rest, a failed one by the deferred drain, the last one by the return |
| PipelineCourse.LoopHeadTakesDelivery | internal/worker/worker.go:123-136 | at the loop head a waiting delivery can be taken: the first arms the timer, the one that fills the batch flushes it at once |
| PipelineCourse.LoopHeadFlushesInTime | internal/worker/worker.go:138-144 | past its deadline the timer can fire and then the whole batch is flushed |
| PipelineCourse.ReceiverRejectsPoison | internal/rabbitmq/consumer.go:84-101 | after the reject of a poison message the receiver goes on, and gives up if that failed |
| PipelineCourse.SettlementReachesBroker | internal/worker/worker.go:226-255 | a settlement that takes effect leaves the message acked after a good insert and dead-lettered after a failed flush |
| PipelineProgress.StepDecreases | internal/worker/worker.go:91-187 | once the receiver is told to stop or has finished, every step of a goroutine decreases a measure and none of the environment raises it |
| PipelineProgress.EndingTerminates | internal/worker/worker.go:91-187 | so only a bounded number of steps remain, and when they are used up Run has returned |
| PipelineProgress.EndingCanStep | internal/worker/worker.go:91-187 | and until then some goroutine can always step without help |
| PipelineProgress.CommittedReachesEnding | internal/worker/worker.go:91-158 | from the decision to shut down or a fatal flush error only a bounded number of Run's own steps come before that |
| PipelineProgress.CommittedCanStep | internal/worker/worker.go:91-158 | and Run itself can always make the next one |
| PipelineProgress.ReturnedAfterReceiver | internal/worker/worker.go:91-100 | Run returns only after the receiver closed its channel, with the channel empty and the result read exactly once |
| PipelineSizing.DropsWhenPrefetchExceedsCapacity | internal/worker/worker.go:172-186 | with a larger prefetch there is a run that drops a delivery and still returns nil |
| PipelineSizing.NothingDroppedIffPrefetchFits | internal/worker/worker.go:172-186 | a nil result excludes a drop exactly when prefetch is at most the capacity |
| Calendar.DayAfterIsNext | internal/analytics/service.go:71-74 | the formula numbers consecutive calendar days consecutively across month ends, leap days and year ends |
| Calendar.MonthsByFormula | internal/analytics/service.go:71-74 | the month lengths add up to (367 m - 362) / 12, less one in a leap year and two in another from March on, before every month |
| Calendar.OrderOfNumbers | internal/analytics/service.go:57-59 | the numbers order dates as the calendar does |
| Calendar.DateOfDayNumber | internal/analytics/service.go:78-88 | every day has a date, and it has that day's number |
| Calendar.MidnightBound | internal/clickhouse/statistics_repository.go:29-32 | an instant is at or after a date's midnight exactly when its own UTC date is not before the date |
| Calendar.NextMidnightBound | internal/clickhouse/statistics_repository.go:33-36 | an instant is before the midnight ending a date exactly when its own UTC date is not after it |
| Analytics.ParseInvertsFormat | internal/analytics/service.go:78-88 | every date of the years 0000 to 9999 parses back from its text |
| Analytics.OnlyFormattedDatesParse | internal/analytics/service.go:78-88 | nothing else parses |
| Analytics.ParseDateNames | internal/analytics/service.go:78-88 | a text yields a date exactly when, trimmed, it is that date's text, and none exactly when it is blank |
| Analytics.FilterAcceptedIff | internal/analytics/service.go:48-76 | a filter is accepted exactly when both dates are blank or dates, in order, and the platform is blank or known |
| Analytics.FilterErrorIsFirstFailing | internal/analytics/service.go:48-76 | a refused filter gives the error of the first check that fails: from, to, their order, platform |
| Analytics.WindowIsExact | internal/analytics/service.go:48-76 | an instant passes the accepted window's tests exactly when its UTC date is in the inclusive range |
| Queries.WherePlaceholder | internal/clickhouse/statistics_repository.go:27-44 | a condition and its argument appended together stay aligned whatever came before |
| Queries.BuildCommon | internal/clickhouse/rankings_repository.go:29-40 | the built date and country conditions with their arguments select exactly the rows of the filter |
| Queries.ApplicationStatistics | internal/clickhouse/statistics_repository.go:26-65 | the built query never fails on its arguments and returns the statistics of exactly the matching rows |
| Queries.WindowsAddUp | internal/analytics/service.go:48-88 | statistics over [a,c] are those over [a,b] plus those over [b+1,c], for every table and all accepted dates |
| Queries.StatisticsCountEveryMatch | internal/clickhouse/statistics_repository.go:46-53 | over valid rows installs, sessions and purchases add up to the matching rows and revenue is not negative |
| Rankings.RankingIsUnique | internal/clickhouse/rankings_repository.go:43-49 | counts and limit leave only one ranking |
| Rankings.SmallerLimitIsPrefix | internal/clickhouse/rankings_repository.go:41-49 | a smaller limit gives a prefix |
| Rankings.RankingLength | internal/clickhouse/rankings_repository.go:41-49 | the length is the smaller of the limit and the number of applications with an install |
| Rankings.QueriesAgree | internal/clickhouse/rankings_repository.go:26-49 | the count per application is the Installs value of the statistics query for the same dates and country |
| Rankings.CutIsTop | internal/clickhouse/rankings_repository.go:43-49 | grouping, ordering and cutting give distinct applications by installs descending then id ascending, omitting none that comes before a listed one |
| Rankings.AnswerIsRanking | internal/clickhouse/rankings_repository.go:26-49 | the built query, with the limit as its last argument, gets exactly that ranking |
| Rankings.ApplicationRankings | internal/clickhouse/rankings_repository.go:26-72 | no error exactly when nothing failed, and then the answer is the ranking; a refused query, a failed scan, an early end and a failed close each give their own error, and a partial list never passes for the whole |
| AnalyticsServices.LimitAcceptedIff | internal/analytics/rankings_service.go:59-66 | a limit is accepted exactly when blank, meaning 10, or the digits of a number from 1 to 100 |
| AnalyticsServices.RankingRefusedFor | internal/analytics/rankings_service.go:49-73 | a ranking request is refused as its dates would be, and otherwise only for its limit |
| AnalyticsServices.GetApplicationRankings | internal/analytics/rankings_service.go:26-47 | metric, then dates, then limit decide the error; a success is the ranking of the accepted filter, most installs first |
| AnalyticsServices.GetApplicationStatistics | internal/analytics/service.go:26-46 | success exactly for a non-nil application, an accepted filter and an answering store; then the four values are, from the raw texts of the request, the installs, sessions, purchases and purchase revenue of the application's rows on UTC dates in the range, in the country and on the platform if given |
| AnalyticsServices.StatisticsCountRequested | internal/analytics/service.go:26-76 | the statistics of an accepted filter are those four counts and sums |
| AnalyticsServices.RankingCountsRequestedDates | internal/analytics/rankings_service.go:26-73 | each listed value is the number of that application's installs on UTC dates in the requested range and country; values fall, and among equals identifiers rise; an application left out has none, or the list is at its limit and all listed come before it |
| Medians.SortedIsSorted | internal/performance/performance.go:381 | sorting gives the same values in ascending order |
| Medians.KthOfSorted | internal/performance/performance.go:381-386 | the k-th place of the sorted list has at most k smaller values and more than k that are not larger |
| Medians.Median | internal/performance/performance.go:376-387 | the loop and the in-place sort compute the only median of the selected values |
| Medians.MedianDominated | internal/performance/performance.go:376-387 | if one list is nowhere larger than another, neither is its median |
| Medians.OddMedianReciprocal | internal/performance/performance.go:219-225 | for an odd number of runs the median of the rates is the count over the median of the durations |
| Medians.EvenMedianReciprocal | internal/performance/performance.go:219-225 | for an even number it is never less, and equal exactly when the two middle durations are |
| Medians.EvenMedianDiffers | internal/performance/performance.go:219-225 | two runs for which it differs |
| Runners.SlicesPartition | internal/performance/performance.go:210-217 | the slices are non-empty, full but for the last, and joined give back the events |
| Runners.SliceCount | internal/performance/performance.go:195-198 | their number is the announced ceil(n/b) |
| Runners.RunLeavesEvents | internal/performance/performance.go:204-217 | whatever the table held, each run leaves exactly the events in order |
| Runners.PlanInserts | internal/performance/performance.go:194-217 | a completed report made runs times the sum of the announced numbers of inserts |
| Runners.InsertTimeWithin | internal/performance/performance.go:208-218 | with a clock that never goes back the summed insert time is between zero and the time of the run |
| Runners.TimeIsAccountedFor | internal/performance/performance.go:208-218 | the time of a run is exactly the insert times plus the times between them |
| Runners.RunIsTimed | internal/performance/performance.go:208-223 | a run reports, in milliseconds, its last clock reading minus its first, and the sum over its inserts of the reading after minus the reading before, and its events per second of the whole time |
| Runners.ReportIsTimed | internal/performance/performance.go:192-231 | in a report each run of each batch size is timed by its own readings, which come after two for every earlier operation |
| Runners.Runner.InsertSlices | internal/performance/performance.go:209-217 | the chunk loop inserts every slice in order, or stops at the first failure, and sums the right clock readings |
| Runners.Runner.RunOnce | internal/performance/performance.go:204-223 | a run is a reset and then its slices; its measurement is that of its own clock readings |
| Runners.Runner.Run | internal/performance/performance.go:192-231 | success means exactly the planned operations, none failed, and the measurements the clock gives; otherwise it stopped at the first failure |
| Runners.MedianInsertWithin | internal/performance/performance.go:219-227 | for any number of runs the median insert time is at most the median processing time |
| Runners.MedianRateIsRateOfMedian | internal/performance/performance.go:219-227 | for an odd number of runs that take time, the median rate is the event count over the median processing time |
| Runners.ReportIsCredible | internal/performance/performance.go:192-231 | every measurement of a report announces the inserts each of its runs makes, has one entry for each run, none inserting longer than it took, and gives the true medians, the insert one at most the processing one |
| Runners.ValidateOptions | internal/performance/performance.go:233-255 | options pass exactly when both counts are positive and the sizes, or the defaults, positive and distinct; the first bad size decides the error |
| Generators.GenerateEvents | internal/performance/performance.go:285-314 | every event has the application and type of its index's residues and the revenue, country and platform of the draws from 2 i + i div 3 on, all within bounds |
| Generators.GeneratedAreValid | internal/performance/performance.go:285-314 | the worker's own check would accept every generated event |
| Generators.ResidueMeetsBoth | internal/performance/performance.go:285-314 | exactly one residue modulo 300 meets a given application and type |
| Generators.PairCount | internal/performance/performance.go:285-314 | the count of every application and type for every number of events, n/300 when 300 divides it |
| Generators.AnalysedApplication | internal/performance/performance.go:285-314 | with m = ceil(n/100), the analysed application has ceil(m/3) installs, (m+1) div 3 sessions and m div 3 purchases, m in all, and revenue from 100 to 10000 a purchase |
| Generators.PublishedCounts | docs/performance.md:106 | 334 installs, 333 sessions and 333 purchases for the published 100,000 events |
| EndToEnd.AcceptedInputIsKept | internal/event/service.go:33-61 | what Ingest accepted and the broker confirmed is a message the consumer hands on unchanged, and it is queued, held, dead-lettered or stored |
| EndToEnd.ProductionShutsDownCleanly | internal/worker/worker.go:15-24 | with the source's constants and the consumer's prefetch, a nil result of Run means everything returned was acked and stored, and the delays between its three attempts add up to 300 ms |
| EndToEnd.StoredStatisticsAddUp | internal/clickhouse/statistics_repository.go:26-65 | in every reachable state the statistics over the store count each matching row once and show no negative revenue |

## Left out

* `Run` and `receive` as methods: Dafny has no goroutines, so these two are the step relation of `Pipeline`, one action for each blocking point or group of local statements; only the sequential code has an imperative form. The slice reused for `batch` (`clear(batch)`, `batch[:0]`) is a fresh list there.
* Timers fire and stop atomically, so a stop leaves no tick behind, as `stopTimer` is written to achieve; the deferred `stopTimer` at the return of Run is not a step.
* Several workers at once: one worker process runs at a time, with crashes and restarts between runs.
* An insert that commits only after its error was reported and the process has moved on: rows land at the attempt, or never.
* Prefetch 0, which AMQP reads as no limit; the window here is a number.
- PipelineSizing.NothingDroppedIffPrefetchFits: speaks of deliveries dropped in this run; a dropped one is still unsettled at the broker and comes back after the connection closes.
- Workers.Worker.Flush: errors are named by the deliveries and attempts concerned; their texts are not modelled.
- Runners.MedianRateIsRateOfMedian: real numbers stand for floating point, so rounding is not modelled.
- Queries.ApplicationStatistics: sums over mathematical integers and compares whole instants; Int64 overflow and the millisecond precision of the stored timestamp are not modelled.
- FlushMachine.RetryArithmetic: the backoff is an unbounded number; overflow of the shift or of a Duration is not modelled.
- Runners.Runner.Run: the nested loops are split into one method for each level; the progress callback is not modelled, and durations are differences of clock readings.
- Generators.PublishedCounts: the revenue published depends on the random generator's own sequence; only its bounds are proved.
* JSON, UUID and SHA-1 encodings: a body is an event or does not decode, identifiers are opaque, and that generated identifiers differ is an assumption of the lemmas that need it.
* The application lookup of Ingest, the random draws, the clock readings and the answers of driver and channel are parameters; in the step relation they are choices of the environment. The worker's clock counts the waits, not the time inserts take.
* Concurrent calls of Publish, Close and Stop: each runs whole under its mutex, so they are modelled one after another.
* ClickHouse partitions, merges and column types, and the text of the SQL: a query is a list of conditions, its arguments and its aggregates.
* `Measure`, `warmUp`, `prepareAnalysisDataset`, `analyzeStatisticsQuery`: database administration around the modelled loops.
* HTTP handlers, configuration, commands, connection setup, topology declaration, the application repository and the load generator: plumbing with easy claims.
