/**
  The Spring Batch execution contexts the monitoring listener reads.

  The pipeline engine owns and fills these; the listener only reads the
  fields modelled here, so each context is an immutable value.
 */
module Executions {

  /** A job execution's lifecycle status (`BatchStatus`). */
  datatype BatchStatus =
    | Completed | Starting | Started | Stopping | Stopped | Failed | Abandoned | Unknown

  /** The status as the listener renders it in the `status` tag (`toString()` of the enum). */
  function StatusText(s: BatchStatus): string
  {
    match s
    case Completed => "COMPLETED"
    case Starting => "STARTING"
    case Started => "STARTED"
    case Stopping => "STOPPING"
    case Stopped => "STOPPED"
    case Failed => "FAILED"
    case Abandoned => "ABANDONED"
    case Unknown => "UNKNOWN"
  }

  /** Distinct statuses are rendered differently, so they land in distinct series. */
  lemma StatusTextInjective(a: BatchStatus, b: BatchStatus)
    ensures StatusText(a) == StatusText(b) <==> a == b
  {
    if a != b {
      assert StatusText(a) != StatusText(b) by {
        match a
        case Completed =>
        case Starting =>
        case Started =>
        case Stopping =>
        case Stopped =>
        case Failed =>
        case Abandoned =>
        case Unknown =>
      }
    }
  }

  /** A step's exit status: an exit code plus a free-text description. */
  datatype ExitStatus = ExitStatus(exitCode: string, exitDescription: string)

  /** One exception recorded against a step execution. */
  datatype Throwable = Throwable(message: string)

  /**
    A step execution.  `jobName` is the name of the job instance reached
    through the step's owning job execution.
   */
  datatype StepExecution = StepExecution(
    jobName: string,
    stepName: string,
    exitStatus: ExitStatus,
    readCount: nat,
    writeCount: nat,
    readSkipCount: nat,
    processSkipCount: nat,
    writeSkipCount: nat,
    rollbackCount: nat,
    filterCount: nat,
    failureExceptions: seq<Throwable>)

  /** A job execution with its step executions in the order they ran. */
  datatype JobExecution = JobExecution(
    jobName: string,
    status: BatchStatus,
    stepExecutions: seq<StepExecution>)

  /** The context handed to chunk callbacks; it reaches the running step execution. */
  datatype ChunkContext = ChunkContext(stepExecution: StepExecution)

  const TwoTo31: int := 0x8000_0000
  const TwoTo32: int := 0x1_0000_0000

  /** Java's narrowing `(int)` cast: keep the low 32 bits as a two's-complement value. */
  function ToInt32(x: int): (r: int)
    ensures -TwoTo31 <= r < TwoTo31
    ensures r % TwoTo32 == x % TwoTo32
  {
    var low := x % TwoTo32;
    if low >= TwoTo31 then low - TwoTo32 else low
  }

  /**
    The skip total the listener reports: the three skip counts added as
    `long`s, then cast to `int`.  The low 32 bits of a 64-bit sum equal those
    of the exact sum, so the cast of the exact sum is the same value.
   */
  function TotalSkipped(step: StepExecution): (r: int)
    ensures -TwoTo31 <= r < TwoTo31
    ensures step.readSkipCount + step.processSkipCount + step.writeSkipCount < TwoTo31 ==>
              r == step.readSkipCount + step.processSkipCount + step.writeSkipCount
  {
    ToInt32(step.readSkipCount + step.processSkipCount + step.writeSkipCount)
  }

  /** The job's items written: the write counts of its steps added in order. */
  function TotalWritten(steps: seq<StepExecution>): (r: nat)
    ensures forall i :: 0 <= i < |steps| ==> steps[i].writeCount <= r
    ensures |steps| == 0 ==> r == 0
  {
    if |steps| == 0 then 0
    else TotalWritten(steps[..|steps| - 1]) + steps[|steps| - 1].writeCount
  }

  /** Items written add up across consecutive runs of steps. */
  lemma {:induction false} TotalWrittenAppend(a: seq<StepExecution>, b: seq<StepExecution>)
    ensures TotalWritten(a + b) == TotalWritten(a) + TotalWritten(b)
    decreases |b|
  {
    if |b| == 0 {
      assert a + b == a;
    } else {
      var front := b[..|b| - 1];
      assert (a + b)[..|a + b| - 1] == a + front;
      TotalWrittenAppend(a, front);
    }
  }

  /** Only the write counts matter: steps that write nothing add nothing. */
  lemma {:induction false} TotalWrittenOfIdle(steps: seq<StepExecution>)
    requires forall i :: 0 <= i < |steps| ==> steps[i].writeCount == 0
    ensures TotalWritten(steps) == 0
    decreases |steps|
  {
    if |steps| > 0 {
      TotalWrittenOfIdle(steps[..|steps| - 1]);
    }
  }
}
