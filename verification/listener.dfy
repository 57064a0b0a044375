/**
  The performance monitoring listener: job, step and chunk callbacks that
  time each execution level and publish counters, timers and a throughput
  summary into a meter registry.

  The listener keeps one timing sample per level (job, step, chunk) in a
  thread-local slot; this module models one thread's view of those slots.
  A `before*` callback overwrites the slot with a sample started at the
  current monotonic clock reading; the matching `after*` callback takes the
  sample out of the slot (clearing it in every case) and, when there was one,
  stops it at the current reading.  Every callback is a pure transition of
  `State`; clock readings are parameters.
 */
module Listener {
  import opened Wrappers
  import opened Meters
  import opened Executions

  /** A started timing sample: the clock reading, in nanoseconds, when it began. */
  datatype Sample = Sample(startNanos: int)

  /** The three sample slots of one thread, plus the shared registry. */
  datatype State = State(
    jobSample: Option<Sample>,
    stepSample: Option<Sample>,
    chunkSample: Option<Sample>,
    registry: Registry)

  /**
    A fresh listener over a registry in which every meter under one of the
    listener's metric names has the kind the listener uses for that name,
    whatever its tags (stricter than Micrometer, which only rejects a clash
    on the same name and tags).
   */
  function Init(reg: Registry): (st: State)
    requires Wf(reg)
    ensures st.jobSample.None? && st.stepSample.None? && st.chunkSample.None?
    ensures st.registry == reg
  {
    State(None, None, None, reg)
  }

  // ---------------------------------------------------------------
  // Series identities
  // ---------------------------------------------------------------

  /** Tags `job.name` and `step.name`. */
  function StepTags(step: StepExecution): Tags
  {
    map["job.name" := step.jobName, "step.name" := step.stepName]
  }

  /** Tags `job.name` and `status`. */
  function JobStatusTags(job: JobExecution): Tags
  {
    map["job.name" := job.jobName, "status" := StatusText(job.status)]
  }

  /** One of the step counters, tagged by job and step name. */
  function StepCounterId(n: MetricName, step: StepExecution): MeterId
  {
    MeterId(n, StepTags(step))
  }

  /** The step duration timer also carries the step's exit code as `status`. */
  function StepDurationId(step: StepExecution): MeterId
  {
    MeterId(StepDuration, StepTags(step)["status" := step.exitStatus.exitCode])
  }

  function ThroughputId(step: StepExecution): MeterId
  {
    MeterId(StepThroughput, StepTags(step))
  }

  function JobDurationId(job: JobExecution): MeterId
  {
    MeterId(JobDuration, JobStatusTags(job))
  }

  function JobExecutionsId(job: JobExecution): MeterId
  {
    MeterId(JobExecutions, JobStatusTags(job))
  }

  /** Items written by the job is tagged by job name only. */
  function JobItemsWrittenId(job: JobExecution): MeterId
  {
    MeterId(JobItemsWritten, map["job.name" := job.jobName])
  }

  /** The chunk duration of a chunk that completed: no `status` tag. */
  function ChunkDurationId(step: StepExecution): MeterId
  {
    MeterId(ChunkDuration, StepTags(step))
  }

  /** The chunk duration of a chunk that failed: `status` is `ERROR`. */
  function ChunkErrorDurationId(step: StepExecution): MeterId
  {
    MeterId(ChunkDuration, StepTags(step)["status" := "ERROR"])
  }

  function ChunkErrorsId(step: StepExecution): MeterId
  {
    MeterId(ChunkErrors, StepTags(step))
  }

  /** Every series `afterStep` may touch. */
  function StepMeterIds(step: StepExecution): set<MeterId>
  {
    {StepDurationId(step), ThroughputId(step),
     StepCounterId(StepItemsRead, step), StepCounterId(StepItemsWritten, step),
     StepCounterId(StepItemsSkipped, step), StepCounterId(StepRetries, step),
     StepCounterId(StepItemsFiltered, step), StepCounterId(StepFailures, step)}
  }

  /** Every series `afterJob` may touch. */
  function JobMeterIds(job: JobExecution): set<MeterId>
  {
    {JobDurationId(job), JobExecutionsId(job), JobItemsWrittenId(job)}
  }

  /** The completed and the failed chunk durations are separate series. */
  lemma ChunkDurationSeriesDistinct(step: StepExecution)
    ensures ChunkDurationId(step) != ChunkErrorDurationId(step)
  {
    assert "status" in ChunkErrorDurationId(step).tags;
    assert "status" !in ChunkDurationId(step).tags;
  }

  // ---------------------------------------------------------------
  // Timing
  // ---------------------------------------------------------------

  /** The observation a stopped sample adds to its timer: none without a sample, none if negative. */
  function Elapsed(sample: Option<Sample>, now: int): seq<int>
  {
    match sample
    case None => []
    case Some(s) => if now - s.startNanos >= 0 then [now - s.startNanos] else []
  }

  /** Java's `long` division by 1 000 000, which truncates toward zero. */
  function NanosToMillis(nanos: int): (ms: int)
    ensures ms > 0 <==> nanos >= 1_000_000
    ensures nanos >= 0 ==> ms * 1_000_000 <= nanos < ms * 1_000_000 + 1_000_000
    ensures nanos < 0 ==> -ms * 1_000_000 <= -nanos < -ms * 1_000_000 + 1_000_000
  {
    if nanos >= 0 then nanos / 1_000_000 else -((-nanos) / 1_000_000)
  }

  /** Items per second for a step of `durationMs` whole milliseconds. */
  function Throughput(writeCount: nat, durationMs: int): real
    requires durationMs >= 1
  {
    writeCount as real * 1000.0 / durationMs as real
  }

  /**
    Record the step's throughput, write count over elapsed seconds, unless
    the elapsed time is under a millisecond.
   */
  function RecordThroughput(reg: Registry, step: StepExecution, durationMs: int): (r: Registry)
    requires Wf(reg)
    ensures Wf(r)
    ensures SameExcept(r, reg, {ThroughputId(step)})
    ensures durationMs < 1 ==> r == reg
    ensures durationMs >= 1 ==> ThroughputId(step) in r
    ensures durationMs >= 1 ==>
              AmountsOf(r, ThroughputId(step)) == AmountsOf(reg, ThroughputId(step)) + [Throughput(step.writeCount, durationMs)]
  {
    var durationSeconds := durationMs as real / 1000.0;
    if durationSeconds < 0.001 then reg
    else
      var throughput := step.writeCount as real / durationSeconds;
      assert throughput == Throughput(step.writeCount, durationMs) && throughput >= 0.0 by {
        assert throughput * durationSeconds == step.writeCount as real;
      }
      RecordSummary(reg, ThroughputId(step), throughput)
  }

  /** The throughput observation `afterStep` adds for a sample stopped at `now`. */
  function ThroughputObserved(sample: Option<Sample>, now: int, step: StepExecution): seq<real>
  {
    match sample
    case None => []
    case Some(s) =>
      if now - s.startNanos >= 1_000_000 then [Throughput(step.writeCount, NanosToMillis(now - s.startNanos))] else []
  }

  /**
    `r` is `reg` after stopping `sample` at `now` for `step`: the duration
    timer gains the elapsed time, the throughput summary gains its
    observation, and nothing else changes.
   */
  ghost predicate TimingRecorded(r: Registry, reg: Registry, step: StepExecution, sample: Option<Sample>, now: int)
  {
    && SameExcept(r, reg, {StepDurationId(step), ThroughputId(step)})
    && (StepDurationId(step) in r <==> StepDurationId(step) in reg || sample.Some?)
    && DurationsOf(r, StepDurationId(step)) == DurationsOf(reg, StepDurationId(step)) + Elapsed(sample, now)
    && (ThroughputId(step) in r <==> ThroughputId(step) in reg || |ThroughputObserved(sample, now, step)| == 1)
    && AmountsOf(r, ThroughputId(step)) == AmountsOf(reg, ThroughputId(step)) + ThroughputObserved(sample, now, step)
  }

  /** Stop the step sample, if any, into the step duration timer and derive throughput. */
  function RecordStepTiming(reg: Registry, step: StepExecution, sample: Option<Sample>, now: int): (r: Registry)
    requires Wf(reg)
    ensures Wf(r)
    ensures TimingRecorded(r, reg, step, sample, now)
  {
    match sample
    case None => reg
    case Some(s) =>
      var durationNanos := now - s.startNanos;
      var timed := RecordTimer(reg, StepDurationId(step), durationNanos);
      var durationMs := NanosToMillis(durationNanos);
      if durationMs > 0 then RecordThroughput(timed, step, durationMs) else timed
  }

  // ---------------------------------------------------------------
  // Step callbacks
  // ---------------------------------------------------------------

  /** Start a step sample, abandoning any earlier one of this thread. */
  function BeforeStep(st: State, step: StepExecution, now: int): (r: State)
    ensures r.stepSample == Some(Sample(now))
    ensures r.jobSample == st.jobSample && r.chunkSample == st.chunkSample
    ensures r.registry == st.registry
  {
    st.(stepSample := Some(Sample(now)))
  }

  /** The five item counters `afterStep` creates even for a zero increment. */
  function ItemCounterIds(step: StepExecution): set<MeterId>
  {
    {StepCounterId(StepItemsRead, step), StepCounterId(StepItemsWritten, step),
     StepCounterId(StepItemsSkipped, step), StepCounterId(StepRetries, step),
     StepCounterId(StepItemsFiltered, step)}
  }

  /** The amount `afterStep` adds to each step counter: zero for every other metric. */
  function StepIncrement(n: MetricName, step: StepExecution): int
  {
    match n
    case StepItemsRead => step.readCount
    case StepItemsWritten => step.writeCount
    case StepItemsSkipped => TotalSkipped(step)
    case StepRetries => step.rollbackCount
    case StepItemsFiltered => step.filterCount
    case StepFailures => |step.failureExceptions|
    case _ => 0
  }

  /** Publish the five item counters, each by its own increment, zero included. */
  function RecordItemCounts(reg: Registry, step: StepExecution): (r: Registry)
    requires Wf(reg)
    ensures Wf(r)
    ensures SameExcept(r, reg, ItemCounterIds(step))
    ensures forall id :: id in ItemCounterIds(step) ==> id in r && CountOf(r, id) == CountOf(reg, id) + StepIncrement(id.name, step)
  {
    var bumps := [Bump(StepCounterId(StepItemsRead, step), step.readCount),
                  Bump(StepCounterId(StepItemsWritten, step), step.writeCount),
                  Bump(StepCounterId(StepItemsSkipped, step), TotalSkipped(step)),
                  Bump(StepCounterId(StepRetries, step), step.rollbackCount),
                  Bump(StepCounterId(StepItemsFiltered, step), step.filterCount)];
    assert BumpedIds(bumps) == ItemCounterIds(step) by {
      assert forall i :: 0 <= i < |bumps| ==> bumps[i].id in ItemCounterIds(step);
      assert forall id :: id in ItemCounterIds(step) ==> id == bumps[0].id || id == bumps[1].id || id == bumps[2].id || id == bumps[3].id || id == bumps[4].id;
    }
    var r := IncrementAll(reg, bumps);
    assert forall id :: id in ItemCounterIds(step) ==> id in r && CountOf(r, id) == CountOf(reg, id) + StepIncrement(id.name, step) by {
      assert forall id :: id in ItemCounterIds(step) ==> id == bumps[0].id || id == bumps[1].id || id == bumps[2].id || id == bumps[3].id || id == bumps[4].id;
    }
    r
  }

  /**
    `r` is `reg` after publishing the counts of `step`: each item counter
    exists and grew by its increment, the failures counter grew by the number
    of failures and was left alone (possibly absent) when there were none,
    and nothing else changes.
   */
  ghost predicate CountsRecorded(r: Registry, reg: Registry, step: StepExecution)
  {
    && SameExcept(r, reg, ItemCounterIds(step) + {StepCounterId(StepFailures, step)})
    && (forall id :: id in ItemCounterIds(step) ==> id in r && CountOf(r, id) == CountOf(reg, id) + StepIncrement(id.name, step))
    && (|step.failureExceptions| == 0 ==>
          Find(r, StepCounterId(StepFailures, step)) == Find(reg, StepCounterId(StepFailures, step)))
    && (|step.failureExceptions| > 0 ==>
          StepCounterId(StepFailures, step) in r &&
          CountOf(r, StepCounterId(StepFailures, step)) == CountOf(reg, StepCounterId(StepFailures, step)) + |step.failureExceptions|)
  }

  /**
    Publish the step's counts: the five item counters in every case, the
    failures counter only when the step recorded failures.
   */
  function RecordStepCounts(reg: Registry, step: StepExecution): (r: Registry)
    requires Wf(reg)
    ensures Wf(r)
    ensures CountsRecorded(r, reg, step)
  {
    var items := RecordItemCounts(reg, step);
    var failures := StepCounterId(StepFailures, step);
    assert failures !in ItemCounterIds(step);
    SameReadings(items, reg, failures);
    if |step.failureExceptions| > 0 then
      var r := Increment(items, failures, |step.failureExceptions|);
      SameExceptTrans(r, items, reg, {failures}, ItemCounterIds(step));
      assert forall id :: id in ItemCounterIds(step) ==> Find(r, id) == Find(items, id);
      r
    else items
  }

  /** The two phases of `afterStep` touch disjoint series, so their effects add up. */
  lemma StepPhasesCompose(reg: Registry, timed: Registry, counted: Registry, step: StepExecution,
                          sample: Option<Sample>, now: int)
    requires TimingRecorded(timed, reg, step, sample, now)
    requires CountsRecorded(counted, timed, step)
    ensures SameExcept(counted, reg, StepMeterIds(step))
    ensures StepDurationId(step) in counted <==> StepDurationId(step) in reg || sample.Some?
    ensures DurationsOf(counted, StepDurationId(step)) == DurationsOf(reg, StepDurationId(step)) + Elapsed(sample, now)
    ensures ThroughputId(step) in counted <==> ThroughputId(step) in reg || |ThroughputObserved(sample, now, step)| == 1
    ensures AmountsOf(counted, ThroughputId(step)) == AmountsOf(reg, ThroughputId(step)) + ThroughputObserved(sample, now, step)
    ensures forall id :: id in ItemCounterIds(step) ==> id in counted && CountOf(counted, id) == CountOf(reg, id) + StepIncrement(id.name, step)
    ensures |step.failureExceptions| == 0 ==>
              Find(counted, StepCounterId(StepFailures, step)) == Find(reg, StepCounterId(StepFailures, step))
    ensures |step.failureExceptions| > 0 ==>
              StepCounterId(StepFailures, step) in counted &&
              CountOf(counted, StepCounterId(StepFailures, step)) == CountOf(reg, StepCounterId(StepFailures, step)) + |step.failureExceptions|
  {
    var failures := StepCounterId(StepFailures, step);
    var countIds := ItemCounterIds(step) + {failures};
    var timeIds := {StepDurationId(step), ThroughputId(step)};
    assert StepDurationId(step) !in countIds;
    assert ThroughputId(step) !in countIds;
    SameReadings(counted, timed, StepDurationId(step));
    SameReadings(counted, timed, ThroughputId(step));
    SameReadings(timed, reg, failures);
    forall id | id in ItemCounterIds(step)
      ensures id in counted && CountOf(counted, id) == CountOf(reg, id) + StepIncrement(id.name, step)
    {
      assert id !in timeIds;
      SameReadings(timed, reg, id);
    }
    SameExceptTrans(counted, timed, reg, countIds, timeIds);
    assert countIds + timeIds == StepMeterIds(step);
  }

  /** What `afterStep` hands back to the engine, next to the new listener state. */
  datatype StepReturn = StepReturn(state: State, exitStatus: ExitStatus)

  /**
    End of a step: take the step sample out of its slot, publish duration and
    throughput when there was a sample, publish the counts in every case, and
    hand the step's exit status back unchanged.
   */
  function AfterStep(st: State, step: StepExecution, now: int): (out: StepReturn)
    requires Wf(st.registry)
    ensures out.exitStatus == step.exitStatus
    ensures out.state.stepSample.None?
    ensures out.state.jobSample == st.jobSample && out.state.chunkSample == st.chunkSample
    ensures Wf(out.state.registry)
    ensures SameExcept(out.state.registry, st.registry, StepMeterIds(step))
    // duration and throughput
    ensures StepDurationId(step) in out.state.registry <==> StepDurationId(step) in st.registry || st.stepSample.Some?
    ensures DurationsOf(out.state.registry, StepDurationId(step)) == DurationsOf(st.registry, StepDurationId(step)) + Elapsed(st.stepSample, now)
    ensures ThroughputId(step) in out.state.registry <==> ThroughputId(step) in st.registry || |ThroughputObserved(st.stepSample, now, step)| == 1
    ensures AmountsOf(out.state.registry, ThroughputId(step)) == AmountsOf(st.registry, ThroughputId(step)) + ThroughputObserved(st.stepSample, now, step)
    // item counters, present even for a zero increment
    ensures forall id :: id in ItemCounterIds(step) ==>
              id in out.state.registry && CountOf(out.state.registry, id) == CountOf(st.registry, id) + StepIncrement(id.name, step)
    // failures, created lazily
    ensures |step.failureExceptions| == 0 ==>
              Find(out.state.registry, StepCounterId(StepFailures, step)) == Find(st.registry, StepCounterId(StepFailures, step))
    ensures |step.failureExceptions| > 0 ==>
              StepCounterId(StepFailures, step) in out.state.registry &&
              CountOf(out.state.registry, StepCounterId(StepFailures, step)) == CountOf(st.registry, StepCounterId(StepFailures, step)) + |step.failureExceptions|
  {
    var sample := st.stepSample;
    var timed := RecordStepTiming(st.registry, step, sample, now);
    var counted := RecordStepCounts(timed, step);
    StepPhasesCompose(st.registry, timed, counted, step, sample, now);
    StepReturn(st.(stepSample := None, registry := counted), step.exitStatus)
  }

  // ---------------------------------------------------------------
  // Job callbacks
  // ---------------------------------------------------------------

  /** Start a job sample, abandoning any earlier one of this thread. */
  function BeforeJob(st: State, job: JobExecution, now: int): (r: State)
    ensures r.jobSample == Some(Sample(now))
    ensures r.stepSample == st.stepSample && r.chunkSample == st.chunkSample
    ensures r.registry == st.registry
  {
    st.(jobSample := Some(Sample(now)))
  }

  /** Stop the job sample, if any, into the job duration timer of the job's final status. */
  function RecordJobTiming(reg: Registry, job: JobExecution, sample: Option<Sample>, now: int): (r: Registry)
    requires Wf(reg)
    ensures Wf(r)
    ensures SameExcept(r, reg, {JobDurationId(job)})
    ensures JobDurationId(job) in r <==> JobDurationId(job) in reg || sample.Some?
    ensures DurationsOf(r, JobDurationId(job)) == DurationsOf(reg, JobDurationId(job)) + Elapsed(sample, now)
  {
    match sample
    case None => reg
    case Some(s) => RecordTimer(reg, JobDurationId(job), now - s.startNanos)
  }

  /**
    End of a job: take the job sample out of its slot, publish the job
    duration when there was a sample, and in every case count one execution
    under (job name, status) and add the items its steps wrote.
   */
  function AfterJob(st: State, job: JobExecution, now: int): (r: State)
    requires Wf(st.registry)
    ensures r.jobSample.None?
    ensures r.stepSample == st.stepSample && r.chunkSample == st.chunkSample
    ensures Wf(r.registry)
    ensures SameExcept(r.registry, st.registry, JobMeterIds(job))
    ensures JobDurationId(job) in r.registry <==> JobDurationId(job) in st.registry || st.jobSample.Some?
    ensures DurationsOf(r.registry, JobDurationId(job)) == DurationsOf(st.registry, JobDurationId(job)) + Elapsed(st.jobSample, now)
    ensures JobExecutionsId(job) in r.registry
    ensures CountOf(r.registry, JobExecutionsId(job)) == CountOf(st.registry, JobExecutionsId(job)) + 1
    ensures JobItemsWrittenId(job) in r.registry
    ensures CountOf(r.registry, JobItemsWrittenId(job)) == CountOf(st.registry, JobItemsWrittenId(job)) + TotalWritten(job.stepExecutions)
  {
    var timed := RecordJobTiming(st.registry, job, st.jobSample, now);
    var executions := Increment(timed, JobExecutionsId(job), 1);
    var written := Increment(executions, JobItemsWrittenId(job), TotalWritten(job.stepExecutions));
    SameReadings(timed, st.registry, JobExecutionsId(job));
    SameReadings(timed, st.registry, JobItemsWrittenId(job));
    SameReadings(executions, timed, JobItemsWrittenId(job));
    SameReadings(executions, timed, JobDurationId(job));
    SameReadings(written, executions, JobExecutionsId(job));
    SameReadings(written, executions, JobDurationId(job));
    SameExceptTrans(executions, timed, st.registry, {JobExecutionsId(job)}, {JobDurationId(job)});
    SameExceptTrans(written, executions, st.registry, {JobItemsWrittenId(job)}, {JobExecutionsId(job)} + {JobDurationId(job)});
    assert {JobItemsWrittenId(job)} + ({JobExecutionsId(job)} + {JobDurationId(job)}) == JobMeterIds(job);
    st.(jobSample := None, registry := written)
  }

  // ---------------------------------------------------------------
  // Chunk callbacks
  // ---------------------------------------------------------------

  /** Start a chunk sample, abandoning any earlier one of this thread. */
  function BeforeChunk(st: State, chunk: ChunkContext, now: int): (r: State)
    ensures r.chunkSample == Some(Sample(now))
    ensures r.jobSample == st.jobSample && r.stepSample == st.stepSample
    ensures r.registry == st.registry
  {
    st.(chunkSample := Some(Sample(now)))
  }

  /**
    End of a chunk: take the chunk sample out of its slot and, only when there
    was one, publish the chunk duration without a `status` tag.
   */
  function AfterChunk(st: State, chunk: ChunkContext, now: int): (r: State)
    requires Wf(st.registry)
    ensures r.chunkSample.None?
    ensures r.jobSample == st.jobSample && r.stepSample == st.stepSample
    ensures Wf(r.registry)
    ensures st.chunkSample.None? ==> r.registry == st.registry
    ensures SameExcept(r.registry, st.registry, {ChunkDurationId(chunk.stepExecution)})
    ensures st.chunkSample.Some? ==> ChunkDurationId(chunk.stepExecution) in r.registry
    ensures DurationsOf(r.registry, ChunkDurationId(chunk.stepExecution)) ==
              DurationsOf(st.registry, ChunkDurationId(chunk.stepExecution)) + Elapsed(st.chunkSample, now)
  {
    var sample := st.chunkSample;
    var reg := match sample
      case None => st.registry
      case Some(s) => RecordTimer(st.registry, ChunkDurationId(chunk.stepExecution), now - s.startNanos);
    st.(chunkSample := None, registry := reg)
  }

  /**
    A chunk failed: take the chunk sample out of its slot, publish the chunk
    duration tagged `status=ERROR` only when there was a sample, and count
    one chunk error in every case.
   */
  function AfterChunkError(st: State, chunk: ChunkContext, now: int): (r: State)
    requires Wf(st.registry)
    ensures r.chunkSample.None?
    ensures r.jobSample == st.jobSample && r.stepSample == st.stepSample
    ensures Wf(r.registry)
    ensures SameExcept(r.registry, st.registry, {ChunkErrorDurationId(chunk.stepExecution), ChunkErrorsId(chunk.stepExecution)})
    ensures Find(r.registry, ChunkDurationId(chunk.stepExecution)) == Find(st.registry, ChunkDurationId(chunk.stepExecution))
    ensures ChunkErrorDurationId(chunk.stepExecution) in r.registry <==>
              ChunkErrorDurationId(chunk.stepExecution) in st.registry || st.chunkSample.Some?
    ensures DurationsOf(r.registry, ChunkErrorDurationId(chunk.stepExecution)) ==
              DurationsOf(st.registry, ChunkErrorDurationId(chunk.stepExecution)) + Elapsed(st.chunkSample, now)
    ensures ChunkErrorsId(chunk.stepExecution) in r.registry
    ensures CountOf(r.registry, ChunkErrorsId(chunk.stepExecution)) == CountOf(st.registry, ChunkErrorsId(chunk.stepExecution)) + 1
  {
    var sample := st.chunkSample;
    var step := chunk.stepExecution;
    var timed := match sample
      case None => st.registry
      case Some(s) => RecordTimer(st.registry, ChunkErrorDurationId(step), now - s.startNanos);
    ChunkDurationSeriesDistinct(step);
    var counted := Increment(timed, ChunkErrorsId(step), 1);
    st.(chunkSample := None, registry := counted)
  }
}
