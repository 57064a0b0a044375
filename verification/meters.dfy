/**
  An abstract meter registry in the style of Micrometer's `MeterRegistry`.

  A meter series is identified by a metric name plus a set of tags (label
  name to label value).  Registering a series that already exists returns the
  existing series, so every operation below is a get-or-create followed by an
  update: a counter accumulates a running total, a timer and a distribution
  summary accumulate their observations in order.
 */
module Meters {
  import opened Wrappers

  /** The metric names the monitoring listener registers. */
  datatype MetricName =
    | StepDuration | StepItemsRead | StepItemsWritten | StepItemsSkipped
    | StepRetries | StepItemsFiltered | StepFailures | StepThroughput
    | JobDuration | JobExecutions | JobItemsWritten
    | ChunkDuration | ChunkErrors

  /** The name under which each metric is published. */
  function Text(n: MetricName): string
  {
    match n
    case StepDuration => "batch.step.duration"
    case StepItemsRead => "batch.step.items.read"
    case StepItemsWritten => "batch.step.items.written"
    case StepItemsSkipped => "batch.step.items.skipped"
    case StepRetries => "batch.step.retries"
    case StepItemsFiltered => "batch.step.items.filtered"
    case StepFailures => "batch.step.failures"
    case StepThroughput => "batch.step.throughput"
    case JobDuration => "batch.job.duration"
    case JobExecutions => "batch.job.executions"
    case JobItemsWritten => "batch.job.items.written"
    case ChunkDuration => "batch.chunk.duration"
    case ChunkErrors => "batch.chunk.errors"
  }

  /** Reads a published name back; the partner of `Text`. */
  function Parse(s: string): Option<MetricName>
  {
    if s == "batch.step.duration" then Some(StepDuration)
    else if s == "batch.step.items.read" then Some(StepItemsRead)
    else if s == "batch.step.items.written" then Some(StepItemsWritten)
    else if s == "batch.step.items.skipped" then Some(StepItemsSkipped)
    else if s == "batch.step.retries" then Some(StepRetries)
    else if s == "batch.step.items.filtered" then Some(StepItemsFiltered)
    else if s == "batch.step.failures" then Some(StepFailures)
    else if s == "batch.step.throughput" then Some(StepThroughput)
    else if s == "batch.job.duration" then Some(JobDuration)
    else if s == "batch.job.executions" then Some(JobExecutions)
    else if s == "batch.job.items.written" then Some(JobItemsWritten)
    else if s == "batch.chunk.duration" then Some(ChunkDuration)
    else if s == "batch.chunk.errors" then Some(ChunkErrors)
    else None
  }

  /** Every metric has its own published name: reading it back gives the metric. */
  lemma TextRoundTrip(n: MetricName)
    ensures Parse(Text(n)) == Some(n)
  {
    match n
    case StepDuration =>
    case StepItemsRead =>
    case StepItemsWritten =>
    case StepItemsSkipped =>
    case StepRetries =>
    case StepItemsFiltered =>
    case StepFailures =>
    case StepThroughput =>
    case JobDuration =>
    case JobExecutions =>
    case JobItemsWritten =>
    case ChunkDuration =>
    case ChunkErrors =>
  }

  /** Distinct metrics are published under distinct names. */
  lemma TextInjective(a: MetricName, b: MetricName)
    ensures Text(a) == Text(b) <==> a == b
  {
    if Text(a) == Text(b) {
      TextRoundTrip(a);
      TextRoundTrip(b);
    }
  }

  datatype MeterKind = CounterKind | TimerKind | SummaryKind

  /** The kind of meter each metric is registered as. */
  function KindOfName(n: MetricName): MeterKind
  {
    match n
    case StepDuration | JobDuration | ChunkDuration => TimerKind
    case StepThroughput => SummaryKind
    case _ => CounterKind
  }

  /** Label name to label value. */
  type Tags = map<string, string>

  /** The identity of one series: name plus tags. */
  datatype MeterId = MeterId(name: MetricName, tags: Tags)

  /** One series: a counter's running total, or a timer's or summary's observations. */
  datatype Meter =
    | Counter(count: int)
    | Timer(durations: seq<int>)
    | Summary(amounts: seq<real>)
  {
    function Kind(): MeterKind
    {
      match this
      case Counter(_) => CounterKind
      case Timer(_) => TimerKind
      case Summary(_) => SummaryKind
    }
  }

  type Registry = map<MeterId, Meter>

  /**
    Every series has the kind its metric is registered as, whatever its tags.
    Micrometer refuses to register a name and tags that already exist with
    another meter type; this predicate is stricter, asking the kind per
    metric name rather than per name and tags.
   */
  predicate Wf(reg: Registry)
  {
    forall id :: id in reg ==> reg[id].Kind() == KindOfName(id.name)
  }

  /** The series for `id`, or `None` when it has never been registered. */
  function Find(reg: Registry, id: MeterId): Option<Meter>
  {
    if id in reg then Some(reg[id]) else None
  }

  /** A counter's total; an absent series reads as zero. */
  function CountOf(reg: Registry, id: MeterId): int
  {
    if id in reg && reg[id].Counter? then reg[id].count else 0
  }

  /** A timer's observations; an absent series has none. */
  function DurationsOf(reg: Registry, id: MeterId): seq<int>
  {
    if id in reg && reg[id].Timer? then reg[id].durations else []
  }

  /** A distribution summary's observations; an absent series has none. */
  function AmountsOf(reg: Registry, id: MeterId): seq<real>
  {
    if id in reg && reg[id].Summary? then reg[id].amounts else []
  }

  /** Only the series `id` may differ between `a` and `b`. */
  ghost predicate SameExcept(a: Registry, b: Registry, ids: set<MeterId>)
  {
    forall id :: id !in ids ==> Find(a, id) == Find(b, id)
  }

  /** Frames compose: what two updates leave alone, their composition leaves alone. */
  lemma SameExceptTrans(a: Registry, b: Registry, c: Registry, s1: set<MeterId>, s2: set<MeterId>)
    requires SameExcept(a, b, s1) && SameExcept(b, c, s2)
    ensures SameExcept(a, c, s1 + s2)
  {
  }

  /** A series left alone reads the same through every accessor. */
  lemma SameReadings(a: Registry, b: Registry, id: MeterId)
    requires Find(a, id) == Find(b, id)
    ensures id in a <==> id in b
    ensures CountOf(a, id) == CountOf(b, id)
    ensures DurationsOf(a, id) == DurationsOf(b, id)
    ensures AmountsOf(a, id) == AmountsOf(b, id)
  {
  }

  /** Get-or-create the counter `id`, then add `amount` to it (a zero amount still creates it). */
  function Increment(reg: Registry, id: MeterId, amount: int): (r: Registry)
    requires Wf(reg) && KindOfName(id.name) == CounterKind
    ensures Wf(r)
    ensures id in r
    ensures CountOf(r, id) == CountOf(reg, id) + amount
    ensures SameExcept(r, reg, {id})
  {
    reg[id := Counter(CountOf(reg, id) + amount)]
  }

  /**
    Get-or-create the timer `id`, then record `nanos`.  Like Micrometer's
    timers, a negative duration is ignored although the series is created.
   */
  function RecordTimer(reg: Registry, id: MeterId, nanos: int): (r: Registry)
    requires Wf(reg) && KindOfName(id.name) == TimerKind
    ensures Wf(r)
    ensures id in r
    ensures DurationsOf(r, id) == DurationsOf(reg, id) + (if nanos >= 0 then [nanos] else [])
    ensures SameExcept(r, reg, {id})
  {
    var prior := DurationsOf(reg, id);
    reg[id := Timer(if nanos >= 0 then prior + [nanos] else prior)]
  }

  /**
    Get-or-create the distribution summary `id`, then record `amount`;
    a negative amount is ignored as in Micrometer.
   */
  function RecordSummary(reg: Registry, id: MeterId, amount: real): (r: Registry)
    requires Wf(reg) && KindOfName(id.name) == SummaryKind
    ensures Wf(r)
    ensures id in r
    ensures AmountsOf(r, id) == AmountsOf(reg, id) + (if amount >= 0.0 then [amount] else [])
    ensures SameExcept(r, reg, {id})
  {
    var prior := AmountsOf(reg, id);
    reg[id := Summary(if amount >= 0.0 then prior + [amount] else prior)]
  }

  /** One counter increment: the series and the amount added to it. */
  datatype Bump = Bump(id: MeterId, amount: int)

  /** The series a list of increments touches. */
  function BumpedIds(bumps: seq<Bump>): set<MeterId>
  {
    set i | 0 <= i < |bumps| :: bumps[i].id
  }

  /** Apply counter increments in order, each to a different counter. */
  function IncrementAll(reg: Registry, bumps: seq<Bump>): (r: Registry)
    requires Wf(reg)
    requires forall i :: 0 <= i < |bumps| ==> KindOfName(bumps[i].id.name) == CounterKind
    requires forall i, j :: 0 <= i < j < |bumps| ==> bumps[i].id != bumps[j].id
    ensures Wf(r)
    ensures SameExcept(r, reg, BumpedIds(bumps))
    ensures forall i :: 0 <= i < |bumps| ==>
              bumps[i].id in r && CountOf(r, bumps[i].id) == CountOf(reg, bumps[i].id) + bumps[i].amount
    decreases |bumps|
  {
    if |bumps| == 0 then reg
    else
      var first := Increment(reg, bumps[0].id, bumps[0].amount);
      var rest := bumps[1..];
      var r := IncrementAll(first, rest);
      assert BumpedIds(bumps) == {bumps[0].id} + BumpedIds(rest) by {
        forall id | id in BumpedIds(bumps) ensures id in {bumps[0].id} + BumpedIds(rest) {
          var i :| 0 <= i < |bumps| && bumps[i].id == id;
          if i > 0 { assert rest[i - 1].id == id; }
        }
      }
      SameExceptTrans(r, first, reg, BumpedIds(rest), {bumps[0].id});
      assert bumps[0].id !in BumpedIds(rest);
      SameReadings(r, first, bumps[0].id);
      r
  }

  /** Two increments of one series accumulate into that single series. */
  lemma IncrementAccumulates(reg: Registry, id: MeterId, a: int, b: int)
    requires Wf(reg) && KindOfName(id.name) == CounterKind
    ensures Increment(Increment(reg, id, a), id, b) == Increment(reg, id, a + b)
  {
  }

  /** Increments of different series do not interfere: the order does not matter. */
  lemma IncrementsCommute(reg: Registry, x: MeterId, y: MeterId, a: int, b: int)
    requires Wf(reg) && KindOfName(x.name) == CounterKind && KindOfName(y.name) == CounterKind
    ensures Increment(Increment(reg, x, a), y, b) == Increment(Increment(reg, y, b), x, a)
  {
  }
}
