/**
  Properties of whole callback sequences: how a `before*` pairs with its
  `after*`, and the concrete situations the listener's tests describe.
 */
module Scenarios {
  import opened Wrappers
  import opened Meters
  import opened Executions
  import opened Listener
  import opened Events

  /** A step with the given name and counts, no skips and no failures, exit code COMPLETED. */
  function SimpleStep(jobName: string, stepName: string, read: nat, written: nat): StepExecution
  {
    StepExecution(jobName, stepName, ExitStatus("COMPLETED", ""), read, written, 0, 0, 0, 0, 0, [])
  }

  /**
    `beforeStep` at `t0` then `afterStep` at `t1` times the step as `t1 - t0`,
    whatever sample the slot held before: a restarted step abandons the
    earlier sample.  Throughput is derived from the same elapsed time.
   */
  lemma StepSamplePairing(st: State, step: StepExecution, t0: int, t1: int)
    requires Wf(st.registry)
    requires t1 - t0 >= 0
    ensures var r := AfterStep(BeforeStep(st, step, t0), step, t1).state;
            && r.stepSample.None?
            && DurationsOf(r.registry, StepDurationId(step)) == DurationsOf(st.registry, StepDurationId(step)) + [t1 - t0]
            && (t1 - t0 >= 1_000_000 ==>
                  AmountsOf(r.registry, ThroughputId(step)) ==
                    AmountsOf(st.registry, ThroughputId(step)) + [Throughput(step.writeCount, NanosToMillis(t1 - t0))])
            && (t1 - t0 < 1_000_000 ==> AmountsOf(r.registry, ThroughputId(step)) == AmountsOf(st.registry, ThroughputId(step)))
  {
    var started := BeforeStep(st, step, t0);
    assert started.stepSample == Some(Sample(t0));
    assert Elapsed(started.stepSample, t1) == [t1 - t0];
    var out := AfterStep(started, step, t1);
    assert DurationsOf(out.state.registry, StepDurationId(step)) ==
             DurationsOf(started.registry, StepDurationId(step)) + Elapsed(started.stepSample, t1);
    assert AmountsOf(out.state.registry, ThroughputId(step)) ==
             AmountsOf(started.registry, ThroughputId(step)) + ThroughputObserved(started.stepSample, t1, step);
  }

  /**
    `beforeChunk` at `t0` then `afterChunk` at `t1` times the chunk as
    `t1 - t0` in the status-less chunk series, whatever sample the slot held
    before, and leaves the failed-chunk series alone.
   */
  lemma ChunkSamplePairing(st: State, chunk: ChunkContext, t0: int, t1: int)
    requires Wf(st.registry)
    requires t1 - t0 >= 0
    ensures var r := AfterChunk(BeforeChunk(st, chunk, t0), chunk, t1);
            && r.chunkSample.None?
            && ChunkDurationId(chunk.stepExecution) in r.registry
            && DurationsOf(r.registry, ChunkDurationId(chunk.stepExecution)) ==
                 DurationsOf(st.registry, ChunkDurationId(chunk.stepExecution)) + [t1 - t0]
            && Find(r.registry, ChunkErrorDurationId(chunk.stepExecution)) ==
                 Find(st.registry, ChunkErrorDurationId(chunk.stepExecution))
  {
    var started := BeforeChunk(st, chunk, t0);
    assert Elapsed(started.chunkSample, t1) == [t1 - t0];
    ChunkDurationSeriesDistinct(chunk.stepExecution);
  }

  /**
    An `afterStep` with no `beforeStep` on this thread publishes no duration
    and no throughput: both series read exactly as before.
   */
  lemma StepWithoutSample(st: State, step: StepExecution, now: int)
    requires Wf(st.registry) && st.stepSample.None?
    ensures var r := AfterStep(st, step, now).state.registry;
            && Find(r, StepDurationId(step)) == Find(st.registry, StepDurationId(step))
            && Find(r, ThroughputId(step)) == Find(st.registry, ThroughputId(step))
  {
    var r := AfterStep(st, step, now).state.registry;
    assert Elapsed(st.stepSample, now) == [];
    assert ThroughputObserved(st.stepSample, now, step) == [];
    assert DurationsOf(r, StepDurationId(step)) == DurationsOf(st.registry, StepDurationId(step));
    assert AmountsOf(r, ThroughputId(step)) == AmountsOf(st.registry, ThroughputId(step));
  }

  /**
    A step with 100 read, 95 written, 2 + 3 + 1
    skipped, 5 rollbacks, 10 filtered, timed over 120 ms on a fresh
    registry.
   */
  lemma IngestLoadScenario()
    ensures var step := StepExecution("ingest", "load", ExitStatus("COMPLETED", ""), 100, 95, 2, 3, 1, 5, 10, []);
            var r := AfterStep(BeforeStep(Init(map[]), step, 0), step, 120_000_000).state.registry;
            && CountOf(r, StepCounterId(StepItemsRead, step)) == 100
            && CountOf(r, StepCounterId(StepItemsWritten, step)) == 95
            && CountOf(r, StepCounterId(StepItemsSkipped, step)) == 6
            && CountOf(r, StepCounterId(StepRetries, step)) == 5
            && CountOf(r, StepCounterId(StepItemsFiltered, step)) == 10
            && StepCounterId(StepFailures, step) !in r
            && DurationsOf(r, StepDurationId(step)) == [120_000_000]
            && AmountsOf(r, ThroughputId(step)) == [2375.0 / 3.0]
  {
    var step := StepExecution("ingest", "load", ExitStatus("COMPLETED", ""), 100, 95, 2, 3, 1, 5, 10, []);
    var st0 := Init(map[]);
    StepSamplePairing(st0, step, 0, 120_000_000);
    var r := AfterStep(BeforeStep(st0, step, 0), step, 120_000_000).state.registry;
    assert NanosToMillis(120_000_000) == 120;
    assert Throughput(95, 120) == 2375.0 / 3.0;
    assert StepCounterId(StepItemsRead, step) in ItemCounterIds(step);
    assert StepCounterId(StepItemsWritten, step) in ItemCounterIds(step);
    assert StepCounterId(StepItemsSkipped, step) in ItemCounterIds(step);
    assert StepCounterId(StepRetries, step) in ItemCounterIds(step);
    assert StepCounterId(StepItemsFiltered, step) in ItemCounterIds(step);
    assert Find(r, StepCounterId(StepFailures, step)) == None;
  }

  /** A step that touches nothing still shows zero-valued item counters, and no failures series. */
  lemma EmptyStepCreatesZeroSeries(jobName: string, stepName: string, now: int)
    ensures var step := SimpleStep(jobName, stepName, 0, 0);
            var r := AfterStep(Init(map[]), step, now).state.registry;
            && StepCounterId(StepItemsRead, step) in r
            && CountOf(r, StepCounterId(StepItemsRead, step)) == 0
            && StepCounterId(StepFailures, step) !in r
  {
    var step := SimpleStep(jobName, stepName, 0, 0);
    var r := AfterStep(Init(map[]), step, now).state.registry;
    assert StepCounterId(StepItemsRead, step) in ItemCounterIds(step);
    assert Find(r, StepCounterId(StepFailures, step)) == None;
  }

  /** Two failures on a step are counted as two. */
  lemma FailuresCounted(jobName: string, stepName: string, now: int)
    ensures var step := SimpleStep(jobName, stepName, 0, 0).(failureExceptions := [Throwable("Error 1"), Throwable("Error 2")]);
            CountOf(AfterStep(Init(map[]), step, now).state.registry, StepCounterId(StepFailures, step)) == 2
  {
  }

  /**
    A chunk error with no `beforeChunk` on this thread publishes no chunk
    duration, in neither series, but still counts one chunk error.
   */
  lemma ChunkErrorWithoutSample(st: State, chunk: ChunkContext, now: int)
    requires Wf(st.registry) && st.chunkSample.None?
    ensures var r := AfterChunkError(st, chunk, now).registry;
            && Find(r, ChunkDurationId(chunk.stepExecution)) == Find(st.registry, ChunkDurationId(chunk.stepExecution))
            && Find(r, ChunkErrorDurationId(chunk.stepExecution)) == Find(st.registry, ChunkErrorDurationId(chunk.stepExecution))
            && CountOf(r, ChunkErrorsId(chunk.stepExecution)) == CountOf(st.registry, ChunkErrorsId(chunk.stepExecution)) + 1
  {
    var r := AfterChunkError(st, chunk, now).registry;
    var id := ChunkErrorDurationId(chunk.stepExecution);
    assert DurationsOf(r, id) == DurationsOf(st.registry, id);
    if id in st.registry {
      assert r[id] == st.registry[id];
    }
  }

  /** The job's items written add up the write counts of its steps: 100 and 150 make 250. */
  lemma JobItemsWrittenScenario(now: int)
    ensures var job := JobExecution("testJob", Completed,
                                    [SimpleStep("testJob", "step1", 0, 100), SimpleStep("testJob", "step2", 0, 150)]);
            CountOf(AfterJob(BeforeJob(Init(map[]), job, 0), job, now).registry, JobItemsWrittenId(job)) == 250
  {
    var steps := [SimpleStep("testJob", "step1", 0, 100), SimpleStep("testJob", "step2", 0, 150)];
    assert steps[..1] == [steps[0]];
    assert [steps[0]][..0] == [];
  }

  /**
    Two runs of one job that end in different statuses each count once, each
    in the series of its own status; two runs that end in the same status
    count twice in one series.
   */
  lemma TwoJobRuns(st: State, j1: JobExecution, j2: JobExecution, n1: int, n2: int, n3: int, n4: int)
    requires Wf(st.registry)
    requires j1.jobName == j2.jobName
    ensures var r := Run(st, [OnBeforeJob(j1, n1), OnAfterJob(j1, n2), OnBeforeJob(j2, n3), OnAfterJob(j2, n4)]).registry;
            var s1 := ExecutionsSeries(j1.jobName, j1.status);
            var s2 := ExecutionsSeries(j2.jobName, j2.status);
            && (j1.status != j2.status ==>
                  CountOf(r, s1) == CountOf(st.registry, s1) + 1 && CountOf(r, s2) == CountOf(st.registry, s2) + 1)
            && (j1.status == j2.status ==> CountOf(r, s1) == CountOf(st.registry, s1) + 2)
  {
    var es := [OnBeforeJob(j1, n1), OnAfterJob(j1, n2), OnBeforeJob(j2, n3), OnAfterJob(j2, n4)];
    assert es[1..][1..][1..][1..] == [];
    ExecutionsCountJobs(st, es, j1.jobName, j1.status);
    ExecutionsCountJobs(st, es, j2.jobName, j2.status);
    var tail := es[1..][1..];
    assert tail == [OnBeforeJob(j2, n3), OnAfterJob(j2, n4)];
    assert tail[1..] == [OnAfterJob(j2, n4)];
    assert tail[1..][1..] == [];
    assert JobsEnded(tail[1..], j1.jobName, j1.status) == (if j2.status == j1.status then 1 else 0);
    assert JobsEnded(tail[1..], j2.jobName, j2.status) == 1;
    assert JobsEnded(tail, j1.jobName, j1.status) == (if j2.status == j1.status then 1 else 0);
    assert JobsEnded(tail, j2.jobName, j2.status) == 1;
    assert JobsEnded(es, j1.jobName, j1.status) == 1 + JobsEnded(tail, j1.jobName, j1.status);
    assert JobsEnded(es, j2.jobName, j2.status) == (if j2.status == j1.status then 1 else 0) + JobsEnded(tail, j2.jobName, j2.status);
  }

  /**
    Two executions of a step with the same job name and step name, even in
    different job executions, accumulate into one series per counter.
   */
  lemma TwoStepRuns(st: State, s1: StepExecution, s2: StepExecution, n: MetricName, t1: int, t2: int, t3: int, t4: int)
    requires Wf(st.registry) && IsStepCounter(n)
    requires s1.jobName == s2.jobName && s1.stepName == s2.stepName
    ensures var r := Run(st, [OnBeforeStep(s1, t1), OnAfterStep(s1, t2), OnBeforeStep(s2, t3), OnAfterStep(s2, t4)]).registry;
            var series := StepSeries(n, s1.jobName, s1.stepName);
            CountOf(r, series) == CountOf(st.registry, series) + StepIncrement(n, s1) + StepIncrement(n, s2)
  {
    var es := [OnBeforeStep(s1, t1), OnAfterStep(s1, t2), OnBeforeStep(s2, t3), OnAfterStep(s2, t4)];
    assert es[1..][1..][1..][1..] == [];
    StepCountersAccumulate(st, es, n, s1.jobName, s1.stepName);
    assert StepTotal(es[1..][1..][1..], n, s1.jobName, s1.stepName) == StepIncrement(n, s2);
    assert StepTotal(es[1..], n, s1.jobName, s1.stepName) == StepIncrement(n, s1) + StepIncrement(n, s2);
  }
}
