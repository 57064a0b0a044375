/**
  Sequences of listener callbacks on one thread, and what they add up to in
  the registry: repeated events with the same tags accumulate into one
  series, events with different tags land in different series.
 */
module Events {
  import opened Meters
  import opened Executions
  import opened Listener

  /** One callback the batch engine makes on the listener, with the clock reading at that moment. */
  datatype Event =
    | OnBeforeJob(job: JobExecution, now: int)
    | OnAfterJob(job: JobExecution, now: int)
    | OnBeforeStep(step: StepExecution, now: int)
    | OnAfterStep(step: StepExecution, now: int)
    | OnBeforeChunk(chunk: ChunkContext, now: int)
    | OnAfterChunk(chunk: ChunkContext, now: int)
    | OnAfterChunkError(chunk: ChunkContext, now: int)

  /** Dispatch one callback. */
  function Apply(st: State, e: Event): (r: State)
    requires Wf(st.registry)
    ensures Wf(r.registry)
  {
    match e
    case OnBeforeJob(job, now) => BeforeJob(st, job, now)
    case OnAfterJob(job, now) => AfterJob(st, job, now)
    case OnBeforeStep(step, now) => BeforeStep(st, step, now)
    case OnAfterStep(step, now) => AfterStep(st, step, now).state
    case OnBeforeChunk(chunk, now) => BeforeChunk(st, chunk, now)
    case OnAfterChunk(chunk, now) => AfterChunk(st, chunk, now)
    case OnAfterChunkError(chunk, now) => AfterChunkError(st, chunk, now)
  }

  /** Dispatch callbacks in order; no callback can break the registry's kind discipline. */
  function Run(st: State, es: seq<Event>): (r: State)
    requires Wf(st.registry)
    ensures Wf(r.registry)
    decreases |es|
  {
    if |es| == 0 then st else Run(Apply(st, es[0]), es[1..])
  }

  /**
    The amount one callback adds to the counter `id`, read off the listener's
    callbacks: one execution and the job's items written for `afterJob`,
    each step counter's increment for `afterStep`, one error for
    `afterChunkError`, nothing for any other callback or series.
   */
  function CounterDelta(e: Event, id: MeterId): int
  {
    match e
    case OnAfterJob(job, _) =>
      if id == JobExecutionsId(job) then 1
      else if id == JobItemsWrittenId(job) then TotalWritten(job.stepExecutions)
      else 0
    case OnAfterStep(step, _) =>
      if id.tags == StepTags(step) then StepIncrement(id.name, step) else 0
    case OnAfterChunkError(chunk, _) =>
      if id == ChunkErrorsId(chunk.stepExecution) then 1 else 0
    case _ => 0
  }

  /** The amounts a run of callbacks adds to the counter `id`. */
  function TotalDelta(es: seq<Event>, id: MeterId): int
    decreases |es|
  {
    if |es| == 0 then 0 else CounterDelta(es[0], id) + TotalDelta(es[1..], id)
  }

  /** A series that is not a counter reads as a zero count. */
  lemma NonCounterReadsZero(reg: Registry, id: MeterId)
    requires Wf(reg) && KindOfName(id.name) != CounterKind
    ensures CountOf(reg, id) == 0
  {
  }

  /** `afterJob` adds one to its executions series and the items written to its job series. */
  lemma CountAfterJob(st: State, job: JobExecution, now: int, id: MeterId)
    requires Wf(st.registry) && KindOfName(id.name) == CounterKind
    ensures CountOf(AfterJob(st, job, now).registry, id) == CountOf(st.registry, id) + CounterDelta(OnAfterJob(job, now), id)
  {
    if id != JobExecutionsId(job) && id != JobItemsWrittenId(job) {
      assert id !in JobMeterIds(job);
      SameReadings(AfterJob(st, job, now).registry, st.registry, id);
    }
  }

  /** A registry change confined to a step's series moves each counter by that step's increment. */
  lemma StepCountDelta(before: Registry, after: Registry, step: StepExecution, id: MeterId)
    requires KindOfName(id.name) == CounterKind
    requires SameExcept(after, before, StepMeterIds(step))
    requires forall i :: i in ItemCounterIds(step) ==> CountOf(after, i) == CountOf(before, i) + StepIncrement(i.name, step)
    requires |step.failureExceptions| == 0 ==>
               Find(after, StepCounterId(StepFailures, step)) == Find(before, StepCounterId(StepFailures, step))
    requires |step.failureExceptions| > 0 ==>
               CountOf(after, StepCounterId(StepFailures, step)) == CountOf(before, StepCounterId(StepFailures, step)) + |step.failureExceptions|
    ensures CountOf(after, id) == CountOf(before, id) + (if id.tags == StepTags(step) then StepIncrement(id.name, step) else 0)
  {
    if id in ItemCounterIds(step) {
      assert id.tags == StepTags(step);
    } else if id == StepCounterId(StepFailures, step) {
      if |step.failureExceptions| == 0 {
        SameReadings(after, before, id);
      }
    } else {
      assert id != StepDurationId(step) && id != ThroughputId(step);
      assert id !in StepMeterIds(step);
      SameReadings(after, before, id);
      if id.tags == StepTags(step) {
        assert id.name != StepItemsRead && id.name != StepItemsWritten && id.name != StepItemsSkipped;
        assert id.name != StepRetries && id.name != StepItemsFiltered && id.name != StepFailures;
      }
    }
  }

  /** `afterStep` adds each step counter's increment to the series tagged with its names. */
  lemma CountAfterStep(st: State, step: StepExecution, now: int, id: MeterId)
    requires Wf(st.registry) && KindOfName(id.name) == CounterKind
    ensures CountOf(AfterStep(st, step, now).state.registry, id) == CountOf(st.registry, id) + CounterDelta(OnAfterStep(step, now), id)
  {
    StepCountDelta(st.registry, AfterStep(st, step, now).state.registry, step, id);
  }

  /** `afterChunkError` adds one to its chunk errors series. */
  lemma CountAfterChunkError(st: State, chunk: ChunkContext, now: int, id: MeterId)
    requires Wf(st.registry) && KindOfName(id.name) == CounterKind
    ensures CountOf(AfterChunkError(st, chunk, now).registry, id) ==
              CountOf(st.registry, id) + CounterDelta(OnAfterChunkError(chunk, now), id)
  {
    if id != ChunkErrorsId(chunk.stepExecution) {
      assert id !in {ChunkErrorDurationId(chunk.stepExecution), ChunkErrorsId(chunk.stepExecution)};
      SameReadings(AfterChunkError(st, chunk, now).registry, st.registry, id);
    }
  }

  /** One callback changes each counter by exactly `CounterDelta`. */
  lemma CountAfterEvent(st: State, e: Event, id: MeterId)
    requires Wf(st.registry)
    ensures CountOf(Apply(st, e).registry, id) == CountOf(st.registry, id) + CounterDelta(e, id)
  {
    var r := Apply(st, e).registry;
    if KindOfName(id.name) != CounterKind {
      NonCounterReadsZero(st.registry, id);
      NonCounterReadsZero(r, id);
      assert CounterDelta(e, id) == 0;
    } else {
      match e
      case OnBeforeJob(_, _) =>
      case OnBeforeStep(_, _) =>
      case OnBeforeChunk(_, _) =>
      case OnAfterChunk(chunk, _) =>
        assert id != ChunkDurationId(chunk.stepExecution);
        SameReadings(r, st.registry, id);
      case OnAfterJob(job, now) => CountAfterJob(st, job, now, id);
      case OnAfterStep(step, now) => CountAfterStep(st, step, now, id);
      case OnAfterChunkError(chunk, now) => CountAfterChunkError(st, chunk, now, id);
    }
  }

  /** A run of callbacks changes each counter by the sum of the per-callback amounts. */
  lemma {:induction false} CountAfterRun(st: State, es: seq<Event>, id: MeterId)
    requires Wf(st.registry)
    ensures CountOf(Run(st, es).registry, id) == CountOf(st.registry, id) + TotalDelta(es, id)
    decreases |es|
  {
    if |es| > 0 {
      CountAfterEvent(st, es[0], id);
      CountAfterRun(Apply(st, es[0]), es[1..], id);
    }
  }

  // ---------------------------------------------------------------
  // Job executions: one series per (job name, status)
  // ---------------------------------------------------------------

  /** The job executions series for a job name and a status. */
  function ExecutionsSeries(jobName: string, status: BatchStatus): MeterId
  {
    MeterId(JobExecutions, map["job.name" := jobName, "status" := StatusText(status)])
  }

  /** How many `afterJob` callbacks in `es` are for a job of that name ending in that status. */
  function JobsEnded(es: seq<Event>, jobName: string, status: BatchStatus): nat
    decreases |es|
  {
    if |es| == 0 then 0
    else
      (if es[0].OnAfterJob? && es[0].job.jobName == jobName && es[0].job.status == status then 1 else 0)
      + JobsEnded(es[1..], jobName, status)
  }

  /** A job lands in the executions series of its own name and status, and in no other. */
  lemma ExecutionsSeriesOfJob(job: JobExecution, jobName: string, status: BatchStatus)
    ensures JobExecutionsId(job) == ExecutionsSeries(jobName, status) <==>
              job.jobName == jobName && job.status == status
  {
    var mine := JobExecutionsId(job).tags;
    var theirs := ExecutionsSeries(jobName, status).tags;
    if mine == theirs {
      assert mine["job.name"] == theirs["job.name"];
      assert mine["status"] == theirs["status"];
      StatusTextInjective(job.status, status);
    }
  }

  /**
    Each `afterJob` adds exactly one to the series of its job's name and
    status: after a run, that series has grown by the number of such jobs.
    Jobs with another name or another status leave it alone.
   */
  lemma {:induction false} ExecutionsCountJobs(st: State, es: seq<Event>, jobName: string, status: BatchStatus)
    requires Wf(st.registry)
    ensures CountOf(Run(st, es).registry, ExecutionsSeries(jobName, status)) ==
              CountOf(st.registry, ExecutionsSeries(jobName, status)) + JobsEnded(es, jobName, status)
  {
    CountAfterRun(st, es, ExecutionsSeries(jobName, status));
    ExecutionsDeltaIsJobsEnded(es, jobName, status);
  }

  lemma {:induction false} ExecutionsDeltaIsJobsEnded(es: seq<Event>, jobName: string, status: BatchStatus)
    ensures TotalDelta(es, ExecutionsSeries(jobName, status)) == JobsEnded(es, jobName, status)
    decreases |es|
  {
    if |es| > 0 {
      ExecutionsDeltaIsJobsEnded(es[1..], jobName, status);
      var id := ExecutionsSeries(jobName, status);
      match es[0]
      case OnAfterJob(job, _) =>
        ExecutionsSeriesOfJob(job, jobName, status);
      case OnAfterStep(step, _) =>
        assert StepIncrement(id.name, step) == 0;
      case _ =>
    }
  }

  // ---------------------------------------------------------------
  // Step counters: one series per (job name, step name)
  // ---------------------------------------------------------------

  /** The metrics `afterStep` publishes as counters. */
  predicate IsStepCounter(n: MetricName)
  {
    n in {StepItemsRead, StepItemsWritten, StepItemsSkipped, StepRetries, StepItemsFiltered, StepFailures}
  }

  /** The step counter `n` for a job name and a step name. */
  function StepSeries(n: MetricName, jobName: string, stepName: string): MeterId
  {
    MeterId(n, map["job.name" := jobName, "step.name" := stepName])
  }

  /** The sum of the increments of `n` over the `afterStep` callbacks in `es` for that job and step name. */
  function StepTotal(es: seq<Event>, n: MetricName, jobName: string, stepName: string): int
    decreases |es|
  {
    if |es| == 0 then 0
    else
      (if es[0].OnAfterStep? && es[0].step.jobName == jobName && es[0].step.stepName == stepName
       then StepIncrement(n, es[0].step) else 0)
      + StepTotal(es[1..], n, jobName, stepName)
  }

  /** A step's counters are tagged with its own job and step name and no other. */
  lemma StepTagsOfStep(step: StepExecution, jobName: string, stepName: string)
    ensures StepTags(step) == StepSeries(StepItemsRead, jobName, stepName).tags <==>
              step.jobName == jobName && step.stepName == stepName
  {
    var theirs := StepSeries(StepItemsRead, jobName, stepName).tags;
    if StepTags(step) == theirs {
      assert StepTags(step)["job.name"] == theirs["job.name"];
      assert StepTags(step)["step.name"] == theirs["step.name"];
    }
  }

  /**
    Step counters accumulate per (job name, step name): after a run, each
    has grown by the sum of its increments over the steps with those names,
    whichever job executions they belonged to; steps of another job name or
    step name leave it alone.
   */
  lemma {:induction false} StepCountersAccumulate(st: State, es: seq<Event>, n: MetricName, jobName: string, stepName: string)
    requires Wf(st.registry)
    requires IsStepCounter(n)
    ensures CountOf(Run(st, es).registry, StepSeries(n, jobName, stepName)) ==
              CountOf(st.registry, StepSeries(n, jobName, stepName)) + StepTotal(es, n, jobName, stepName)
  {
    CountAfterRun(st, es, StepSeries(n, jobName, stepName));
    StepDeltaIsStepTotal(es, n, jobName, stepName);
  }

  lemma {:induction false} StepDeltaIsStepTotal(es: seq<Event>, n: MetricName, jobName: string, stepName: string)
    requires IsStepCounter(n)
    ensures TotalDelta(es, StepSeries(n, jobName, stepName)) == StepTotal(es, n, jobName, stepName)
    decreases |es|
  {
    if |es| > 0 {
      StepDeltaIsStepTotal(es[1..], n, jobName, stepName);
      match es[0]
      case OnAfterStep(step, _) =>
        StepTagsOfStep(step, jobName, stepName);
      case _ =>
    }
  }
}
