# Spring Batch performance monitoring, modelled in Dafny

This project models the core of `spring-batch-observability`:

- **`PerformanceMonitoringListener`.** This listener is attached to Spring Batch jobs, steps and chunks. It times each level with a Micrometer timer sample. At the end of each job, step and chunk it publishes counters, timers and a throughput distribution summary into a meter registry.
- **`AutomaticStepMonitoringPostProcessor`.** This post-processor attaches that listener to the step beans of the application context. A tasklet step gets it as step execution listener and as chunk listener. A partition step gets it as step execution listener only. Any other kind of step gets nothing, and only a debug line is logged.

Modules:

- `Wrappers`: `Option` and `Result`.
- `Meters`: the abstract registry, keyed by metric name plus tags.
  - The thirteen metric names are a datatype. Its `Text` rendering gives the exact strings the listener uses, such as `batch.step.items.read`.
  - A `Counter` holds its running count.
  - A `Timer` holds its recorded durations in nanoseconds.
  - A `Summary` holds its recorded amounts.
  - Get-or-create followed by `increment`, `stop` or `record` is `Increment`, `RecordTimer` or `RecordSummary`.
  - `Wf` says every meter has the kind its metric name is used with, whatever its tags. No callback can break it. This is per metric name, which is stricter than Micrometer's rule (see "Left out").
- `Executions`: the step and job executions and the chunk context, as immutable values. This covers the counts the listener reads, the exit status, the batch status and the failure exceptions. It also models the listener's arithmetic on them: the `(int)` cast of the skip total, and the job's write total.
- `Listener`: one thread's listener state and the seven callbacks.
  - The state holds three sample slots (job, step, chunk) plus the registry.
  - A `before*` callback overwrites its slot with a sample started at the clock reading `now`.
  - An `after*` callback empties its slot and stops the sample it found, if any.
- `Events`: a run of callbacks as a sequence of events. It proves how counters accumulate per tag set across the run.
- `PostProcessor`: the bean dispatch of `postProcessAfterInitialization`. It covers registration failures that are caught and the bean being handed back unchanged.
- `Scenarios`: before/after pairing, plus the concrete situations that the listener's unit tests describe.

## Model

| member | source | states |
|---|---|---|
| Meters.TextRoundTrip | src/main/java/com/sambouch/batch/common/listeners/PerformanceMonitoringListener.java:68-269 | every metric name the listener publishes is rendered as a string that parses back to that same name |
| Meters.TextInjective | src/main/java/com/sambouch/batch/common/listeners/PerformanceMonitoringListener.java:68-269 | two different metrics never share a name string, so they never share a series |
| Meters.Increment | src/main/java/com/sambouch/batch/common/listeners/PerformanceMonitoringListener.java:81-86 | a builder-registered counter exists after `increment`, its count has grown by the amount, a zero amount still creates it, and no other series changes |
| Meters.RecordTimer | src/main/java/com/sambouch/batch/common/listeners/PerformanceMonitoringListener.java:68-73 | stopping a sample into a timer creates the timer and appends the non-negative duration; no other series changes |
| Meters.RecordSummary | src/main/java/com/sambouch/batch/common/listeners/PerformanceMonitoringListener.java:265-269 | recording into a summary creates it and appends the non-negative amount; no other series changes |
| Meters.IncrementAll | src/main/java/com/sambouch/batch/common/listeners/PerformanceMonitoringListener.java:80-122 | a run of increments on distinct counters raises each counter by its own amount and leaves everything else alone |
| Meters.IncrementAccumulates | src/main/java/com/sambouch/batch/common/listeners/PerformanceMonitoringListener.java:81-86 | two increments of the same series add up in one series |
| Meters.IncrementsCommute | src/main/java/com/sambouch/batch/common/listeners/PerformanceMonitoringListener.java:80-122 | the order of increments does not affect the resulting registry |
| Executions.StatusTextInjective | src/main/java/com/sambouch/batch/common/listeners/PerformanceMonitoringListener.java:151 | different batch statuses render as different `status` tags |
| Executions.ToInt32 | src/main/java/com/sambouch/batch/common/listeners/PerformanceMonitoringListener.java:97-99 | the `(int)` cast gives a 32-bit value congruent to its argument modulo 2^32 |
| Executions.TotalSkipped | src/main/java/com/sambouch/batch/common/listeners/PerformanceMonitoringListener.java:97-99 | the skip total is always a 32-bit value, and it equals the sum of read, process and write skips whenever that sum fits in an `int` |
| Executions.TotalWritten | src/main/java/com/sambouch/batch/common/listeners/PerformanceMonitoringListener.java:174-177 | the job's items written is at least each step's write count, and zero with no steps |
| Executions.TotalWrittenAppend | src/main/java/com/sambouch/batch/common/listeners/PerformanceMonitoringListener.java:174-177 | the write total of two runs of steps is the sum of their totals |
| Executions.TotalWrittenOfIdle | src/main/java/com/sambouch/batch/common/listeners/PerformanceMonitoringListener.java:174-177 | steps that wrote nothing give a job total of zero |
| Listener.Init | src/main/java/com/sambouch/batch/common/listeners/PerformanceMonitoringListener.java:29-36 | a new listener has all three sample slots empty and uses the registry it is given |
| Listener.ChunkDurationSeriesDistinct | src/main/java/com/sambouch/batch/common/listeners/PerformanceMonitoringListener.java:212-235 | a failed chunk's duration (`status=ERROR`) is a different series from a completed chunk's duration |
| Listener.NanosToMillis | src/main/java/com/sambouch/batch/common/listeners/PerformanceMonitoringListener.java:75-76 | truncating nanoseconds to milliseconds gives a positive value exactly when at least 1 000 000 ns elapsed, and stays within one millisecond of the exact quotient |
| Listener.RecordThroughput | src/main/java/com/sambouch/batch/common/listeners/PerformanceMonitoringListener.java:253-273 | below one millisecond nothing is recorded; otherwise the throughput summary gains write count times 1000 over milliseconds, and no other series changes |
| Listener.RecordStepTiming | src/main/java/com/sambouch/batch/common/listeners/PerformanceMonitoringListener.java:66-79 | with a sample, the step duration gains the elapsed time, and throughput is recorded only when at least one whole millisecond elapsed; without a sample nothing is timed |
| Listener.BeforeStep | src/main/java/com/sambouch/batch/common/listeners/PerformanceMonitoringListener.java:41-44 | the step slot holds a sample started now (replacing any earlier one); the other slots and the registry are unchanged |
| Listener.RecordItemCounts | src/main/java/com/sambouch/batch/common/listeners/PerformanceMonitoringListener.java:80-122 | the five item counters exist afterwards, even at zero; each has grown by its own count (skips as the cast sum, retries as rollbacks); nothing else changes |
| Listener.RecordStepCounts | src/main/java/com/sambouch/batch/common/listeners/PerformanceMonitoringListener.java:80-132 | as for the item counters; in addition the failures counter grows by the number of failure exceptions, and is neither created nor changed when there are none |
| Listener.StepPhasesCompose | src/main/java/com/sambouch/batch/common/listeners/PerformanceMonitoringListener.java:66-132 | timing then counting touches only the step's series, and each series ends up exactly as its own phase left it |
| Listener.AfterStep | src/main/java/com/sambouch/batch/common/listeners/PerformanceMonitoringListener.java:48-135 | the exit status is handed back unchanged and the step slot is emptied; duration and throughput are recorded only with a sample; every count is published; the failures counter appears only with failures; only the step's own series change |
| Listener.BeforeJob | src/main/java/com/sambouch/batch/common/listeners/PerformanceMonitoringListener.java:141-144 | the job slot holds a sample started now; the other slots and the registry are unchanged |
| Listener.RecordJobTiming | src/main/java/com/sambouch/batch/common/listeners/PerformanceMonitoringListener.java:153-161 | with a sample, the job duration for (name, status) gains the elapsed time; without one it is untouched |
| Listener.AfterJob | src/main/java/com/sambouch/batch/common/listeners/PerformanceMonitoringListener.java:147-190 | the job slot is emptied; the duration is recorded only with a sample; executions for (name, status) grow by exactly one and items written for the name by the steps' total, whether or not there was a sample; nothing else changes |
| Listener.BeforeChunk | src/main/java/com/sambouch/batch/common/listeners/PerformanceMonitoringListener.java:197-200 | the chunk slot holds a sample started now; the other slots and the registry are unchanged |
| Listener.AfterChunk | src/main/java/com/sambouch/batch/common/listeners/PerformanceMonitoringListener.java:202-219 | the chunk slot is emptied; without a sample the registry is untouched; with one, only the status-less chunk duration changes, gaining the elapsed time |
| Listener.AfterChunkError | src/main/java/com/sambouch/batch/common/listeners/PerformanceMonitoringListener.java:221-247 | the chunk slot is emptied; only the `ERROR` chunk duration can gain the elapsed time, and only with a sample; chunk errors grow by one in every case; the completed-chunk series is untouched |
| Events.Apply | src/main/java/com/sambouch/batch/common/listeners/PerformanceMonitoringListener.java:17-18 | no callback can put a meter of the wrong kind into the registry |
| Events.Run | src/main/java/com/sambouch/batch/common/listeners/PerformanceMonitoringListener.java:17-18 | no run of callbacks can put a meter of the wrong kind into the registry |
| Events.NonCounterReadsZero | src/main/java/com/sambouch/batch/common/listeners/PerformanceMonitoringListener.java:68-73 | a timer or summary series never reads as a count |
| Events.CountAfterJob | src/main/java/com/sambouch/batch/common/listeners/PerformanceMonitoringListener.java:164-183 | `afterJob` changes each counter by the reference amount: one execution, the items written, zero elsewhere |
| Events.StepCountDelta | src/main/java/com/sambouch/batch/common/listeners/PerformanceMonitoringListener.java:80-132 | a registry change confined to a step's series moves every counter by that step's increment for its tags, and zero for any other tags |
| Events.CountAfterStep | src/main/java/com/sambouch/batch/common/listeners/PerformanceMonitoringListener.java:48-135 | `afterStep` changes each counter by the step's increment when the tags are the step's, and leaves it alone otherwise |
| Events.CountAfterChunkError | src/main/java/com/sambouch/batch/common/listeners/PerformanceMonitoringListener.java:239-244 | `afterChunkError` changes only its chunk errors counter, by one |
| Events.CountAfterEvent | src/main/java/com/sambouch/batch/common/listeners/PerformanceMonitoringListener.java:40-247 | any single callback changes every counter by exactly the reference amount `CounterDelta` |
| Events.CountAfterRun | src/main/java/com/sambouch/batch/common/listeners/PerformanceMonitoringListener.java:40-247 | over a run of callbacks, every counter grows by the sum of the per-callback amounts |
| Events.ExecutionsSeriesOfJob | src/main/java/com/sambouch/batch/common/listeners/PerformanceMonitoringListener.java:165-170 | a job execution is counted in the series of its own name and status, and in no other |
| Events.ExecutionsCountJobs | src/main/java/com/sambouch/batch/common/listeners/PerformanceMonitoringListener.java:165-170 | after a run, the executions series of (name, status) has grown by the number of `afterJob` callbacks with that name and status |
| Events.ExecutionsDeltaIsJobsEnded | src/main/java/com/sambouch/batch/common/listeners/PerformanceMonitoringListener.java:165-170 | the reference amounts for an executions series add up to the number of matching finished jobs |
| Events.StepTagsOfStep | src/main/java/com/sambouch/batch/common/listeners/PerformanceMonitoringListener.java:81-131 | a step's counters carry the tags of exactly its own job and step names |
| Events.StepCountersAccumulate | src/main/java/com/sambouch/batch/common/listeners/PerformanceMonitoringListener.java:80-132 | after a run, each step counter for (job name, step name) has grown by the sum of the increments of the steps with those names, across job executions |
| Events.StepDeltaIsStepTotal | src/main/java/com/sambouch/batch/common/listeners/PerformanceMonitoringListener.java:80-132 | the reference amounts for a step series add up to the per-name step total |
| PostProcessor.AddOnce | src/main/java/com/sambouch/batch/common/config/AutomaticStepMonitoringPostProcessor.java:35-39 | after registering, the step holds the listener; its earlier listeners keep their order; the list grows by one exactly when the listener was not yet held |
| PostProcessor.AddOnceKeepsDistinct | src/main/java/com/sambouch/batch/common/config/AutomaticStepMonitoringPostProcessor.java:35-39 | a list without duplicates stays without duplicates, and registering the same listener again changes nothing |
| PostProcessor.RegisterStepExecutionListener | src/main/java/com/sambouch/batch/common/config/AutomaticStepMonitoringPostProcessor.java:35 | registration succeeds unless the step rejects it, and then adds the listener unless the step already holds it |
| PostProcessor.RegisterChunkListener | src/main/java/com/sambouch/batch/common/config/AutomaticStepMonitoringPostProcessor.java:36 | registration succeeds unless the step rejects it, and then adds the listener unless the step already holds it |
| PostProcessor.PostProcessAfterInitialization | src/main/java/com/sambouch/batch/common/config/AutomaticStepMonitoringPostProcessor.java:27-51 | the bean is always returned; a tasklet step gets the execution listener and then the chunk listener; a partition step gets only the execution listener; other beans get nothing; a listener the step already holds is not added again; a failing registration keeps earlier ones and skips later ones |
| PostProcessor.PostProcessAll | src/main/java/com/sambouch/batch/common/config/AutomaticStepMonitoringPostProcessor.java:27-51 | across all beans, a failure on one bean does not affect the others: each ends up as processing it alone would leave it, and every bean is returned |
| PostProcessor.FullyMonitoredIff | src/main/java/com/sambouch/batch/common/config/AutomaticStepMonitoringPostProcessor.java:34-36 | both listener lists grow by one exactly when the bean is a tasklet step that accepts both registrations and does not hold the listener yet |
| PostProcessor.ProcessingKeepsListenersDistinct | src/main/java/com/sambouch/batch/common/config/AutomaticStepMonitoringPostProcessor.java:27-51 | a step whose listener lists have no duplicates still has none after processing, so the listener's callbacks never fire twice for one event |
| PostProcessor.ProcessingIdempotent | src/main/java/com/sambouch/batch/common/config/AutomaticStepMonitoringPostProcessor.java:27-51 | processing a bean a second time with the same outcome leaves its listeners as the first pass did |
| Scenarios.StepSamplePairing | src/main/java/com/sambouch/batch/common/listeners/PerformanceMonitoringListener.java:41-79 | `beforeStep` at t0 then `afterStep` at t1 records t1 - t0, whatever was in the slot before, and derives throughput from the same elapsed time |
| Scenarios.ChunkSamplePairing | src/main/java/com/sambouch/batch/common/listeners/PerformanceMonitoringListener.java:197-219 | `beforeChunk` at t0 then `afterChunk` at t1 records t1 - t0 in the status-less chunk series, whatever was in the slot before, and leaves the `ERROR` chunk series as it was |
| Scenarios.StepWithoutSample | src/main/java/com/sambouch/batch/common/listeners/PerformanceMonitoringListener.java:52-79 | `afterStep` without a `beforeStep` leaves the duration and throughput series exactly as they were |
| Scenarios.IngestLoadScenario | src/main/java/com/sambouch/batch/common/listeners/PerformanceMonitoringListener.java:48-135 | a 120 ms step with 100 read, 95 written, 2+3+1 skips, 5 rollbacks and 10 filtered publishes exactly those counts, one duration, a throughput of 95 000/120, and no failures counter |
| Scenarios.EmptyStepCreatesZeroSeries | src/test/java/com/sambouch/batch/PerformanceMonitoringListenerTest.java:425-468 | a step with no items still has an items-read counter at zero, and has no failures counter |
| Scenarios.FailuresCounted | src/test/java/com/sambouch/batch/PerformanceMonitoringListenerTest.java:251-274 | two failure exceptions count as two step failures |
| Scenarios.ChunkErrorWithoutSample | src/main/java/com/sambouch/batch/common/listeners/PerformanceMonitoringListener.java:221-247 | a chunk error without `beforeChunk` records no chunk duration in either series but still counts one error |
| Scenarios.JobItemsWrittenScenario | src/test/java/com/sambouch/batch/PerformanceMonitoringListenerTest.java:79-103 | steps that wrote 100 and 150 items give the job 250 items written |
| Scenarios.TwoJobRuns | src/test/java/com/sambouch/batch/PerformanceMonitoringListenerTest.java:105-136 | two runs of one job count once each in their own status series when the statuses differ, and twice in one series when they match |
| Scenarios.TwoStepRuns | src/test/java/com/sambouch/batch/PerformanceMonitoringListenerTest.java:356-390 | two executions of a step with the same job and step names add their increments into one series per counter |

## Left out

- Logging (debug, info, warn and error lines) has no effect on the metrics and is not modelled.
- Clocks are parameters. A sample is the monotonic reading at which it started, and every `after*` callback takes the reading at which it stops.
- Thread-local slots are modelled for one thread only. Interleavings of threads that share the registry are not modelled, and neither is `ThreadLocal` cleanup on thread death.
- Meter metadata is not modelled. This covers descriptions, `publishPercentileHistogram`, and Micrometer's histogram buckets, percentiles, max and mean. A timer keeps its durations and a summary keeps its amounts, from which count and total follow.
- Micrometer counters are `double`s; counts here are exact integers.
- The job's items written is a 64-bit `long` sum of the step write counts. The model uses the exact sum, so `long` overflow above 2^63 is not modelled.
- Listener.RecordThroughput: throughput is an exact real, `writeCount * 1000 / durationMs`. Java's double division and its rounding are not modelled.
- The `durationSeconds < 0.001` guard inside `recordThroughput` is kept. It can never fire from `afterStep`, which calls it only when whole milliseconds are positive, so below one millisecond nothing is recorded and no diagnostic is logged.
- Samples are kept per thread and per level (job, step, chunk), not per execution. A second `beforeStep` on the same thread replaces the first step's sample.
- Micrometer throws only when the same name and tags already belong to a meter of another kind. The callbacks require `Wf` instead of modelling that exception. `Wf` is per metric name, whatever the tags, so it is stricter than Micrometer: a registry that holds, for example, a timer named `batch.step.items.read` with tags the listener never uses is excluded, although the listener runs on it without error.
- `getJobExecution().getJobInstance().getJobName()` is flattened into the step's `jobName` field. A step execution with no job execution attached, which would throw, is not modelled.
- The post-processor checks bean types with `instanceof`; the model has a `BeanKind` per bean. Which registration throws is a `Fault` parameter, and any exception message is dropped.
- A step ignores a listener it already holds. This follows Spring Batch's ordered listener composite, whose code is not part of this model; `AddOnce` states that behaviour.
- `PrometheusPushGatewayConfiguration.java`, `BatchMonitoringAutoConfiguration.java`, `MonitoringProperties.java` and `EnableBatchMonitoring.java` wire the listener into Spring and push metrics over the network. They are not part of this model.
