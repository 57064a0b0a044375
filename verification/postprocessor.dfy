/**
  The bean post-processor that attaches the monitoring listener to the steps
  of the application context.

  Each bean is classified by what it is: not a step at all, a tasklet step
  (which takes step execution listeners and chunk listeners), a partition
  step (which takes step execution listeners only) or some other step (which
  the post-processor does not support).  The listener lists a step keeps are
  modelled as `Hooks`.  A step keeps each listener once: registering a
  listener it already holds (for instance one given to its builder) leaves
  the list as it is.  A registration call that throws is modelled by a
  `Fault` naming the call that rejects the listener.
 */
module PostProcessor {
  import opened Wrappers

  /** The outcome of the post-processor's type tests on a bean. */
  datatype BeanKind = NotAStep | TaskletStep | PartitionStep | OtherStep

  predicate IsStep(k: BeanKind)
  {
    !k.NotAStep?
  }

  /** A bean: its name in the context and its kind. */
  datatype Bean = Bean(name: string, kind: BeanKind)

  /** A listener instance, by identity. */
  datatype ListenerRef = ListenerRef(id: nat)

  /** The listeners a step has registered, in registration order. */
  datatype Hooks = Hooks(executionListeners: seq<ListenerRef>, chunkListeners: seq<ListenerRef>)

  /** Which registration call, if any, throws for a given bean. */
  datatype Fault = NoFault | RejectsExecutionListener | RejectsChunkListener

  /**
    Add a listener to a step's ordered listener list unless the list already
    holds it: the step keeps each listener once, in first-registration order.
   */
  function AddOnce(ls: seq<ListenerRef>, l: ListenerRef): (r: seq<ListenerRef>)
    ensures l in r
    ensures forall x :: x in r <==> x in ls || x == l
    ensures |r| == |ls| + (if l in ls then 0 else 1)
    ensures r[..|ls|] == ls
  {
    if l in ls then ls else ls + [l]
  }

  /** No listener appears twice, so every callback reaches each listener once. */
  predicate NoDuplicates(ls: seq<ListenerRef>)
  {
    forall i, j :: 0 <= i < j < |ls| ==> ls[i] != ls[j]
  }

  /** Adding once keeps a list free of duplicates, and adding again changes nothing. */
  lemma AddOnceKeepsDistinct(ls: seq<ListenerRef>, l: ListenerRef)
    requires NoDuplicates(ls)
    ensures NoDuplicates(AddOnce(ls, l))
    ensures AddOnce(AddOnce(ls, l), l) == AddOnce(ls, l)
  {
    if l !in ls {
      var r := ls + [l];
      forall i, j | 0 <= i < j < |r| ensures r[i] != r[j] {
        if j == |ls| {
          assert r[i] == ls[i];
        }
      }
    }
  }

  /** Register a step execution listener; fails when the step rejects it, ignores it when already held. */
  function RegisterStepExecutionListener(h: Hooks, listener: ListenerRef, fault: Fault): (r: Result<Hooks>)
    ensures r.Success? <==> fault != RejectsExecutionListener
    ensures r.Success? ==> r.value == h.(executionListeners := AddOnce(h.executionListeners, listener))
  {
    if fault == RejectsExecutionListener then Failure("step execution listener rejected")
    else Success(h.(executionListeners := AddOnce(h.executionListeners, listener)))
  }

  /** Register a chunk listener; fails when the step rejects it, ignores it when already held. */
  function RegisterChunkListener(h: Hooks, listener: ListenerRef, fault: Fault): (r: Result<Hooks>)
    ensures r.Success? <==> fault != RejectsChunkListener
    ensures r.Success? ==> r.value == h.(chunkListeners := AddOnce(h.chunkListeners, listener))
  {
    if fault == RejectsChunkListener then Failure("chunk listener rejected")
    else Success(h.(chunkListeners := AddOnce(h.chunkListeners, listener)))
  }

  /** The bean handed back to the container, and the listeners its step now has. */
  datatype Processed = Processed(bean: Bean, hooks: Hooks)

  /** When the listener ends up registered for step executions. */
  predicate ExecutionAttached(kind: BeanKind, fault: Fault)
  {
    (kind.TaskletStep? || kind.PartitionStep?) && !fault.RejectsExecutionListener?
  }

  /** When the listener ends up registered for chunks. */
  predicate ChunkAttached(kind: BeanKind, fault: Fault)
  {
    kind.TaskletStep? && fault.NoFault?
  }

  /**
    Attach `listener` to `bean` after its initialization.  A tasklet step
    gets it as step execution listener, then as chunk listener; a partition
    step as step execution listener only; other steps and non-steps get
    nothing.  A step that already holds the listener keeps a single copy.
    A registration that throws is caught: the ones made before it stay, the
    ones after it are not attempted.  The bean itself is always
    returned.
   */
  function PostProcessAfterInitialization(bean: Bean, hooks: Hooks, listener: ListenerRef, fault: Fault): (r: Processed)
    ensures r.bean == bean
    ensures r.hooks.executionListeners ==
              (if ExecutionAttached(bean.kind, fault) then AddOnce(hooks.executionListeners, listener) else hooks.executionListeners)
    ensures r.hooks.chunkListeners ==
              (if ChunkAttached(bean.kind, fault) then AddOnce(hooks.chunkListeners, listener) else hooks.chunkListeners)
    ensures !IsStep(bean.kind) || bean.kind.OtherStep? ==> r.hooks == hooks
    ensures bean.kind.PartitionStep? ==> r.hooks.chunkListeners == hooks.chunkListeners
  {
    if !IsStep(bean.kind) then Processed(bean, hooks)
    else
      var attached :=
        match bean.kind
        case TaskletStep =>
          (match RegisterStepExecutionListener(hooks, listener, fault)
           case Failure(_) => hooks
           case Success(withExecution) =>
             match RegisterChunkListener(withExecution, listener, fault)
             case Failure(_) => withExecution
             case Success(withChunk) => withChunk)
        case PartitionStep =>
          (match RegisterStepExecutionListener(hooks, listener, fault)
           case Failure(_) => hooks
           case Success(withExecution) => withExecution)
        case _ => hooks;
      Processed(bean, attached)
  }

  /**
    The container runs the post-processor over every bean in turn.  A bean
    that rejects the listener does not stop the others from being
    instrumented: every bean ends up exactly as processing it alone would
    leave it, and every bean is handed back unchanged.
   */
  method PostProcessAll(beans: seq<Bean>, hooks: seq<Hooks>, faults: seq<Fault>, listener: ListenerRef)
    returns (returned: seq<Bean>, attached: seq<Hooks>)
    requires |hooks| == |beans| && |faults| == |beans|
    ensures returned == beans
    ensures |attached| == |beans|
    ensures forall i :: 0 <= i < |beans| ==>
              attached[i].executionListeners ==
                (if ExecutionAttached(beans[i].kind, faults[i]) then AddOnce(hooks[i].executionListeners, listener) else hooks[i].executionListeners)
    ensures forall i :: 0 <= i < |beans| ==>
              attached[i].chunkListeners ==
                (if ChunkAttached(beans[i].kind, faults[i]) then AddOnce(hooks[i].chunkListeners, listener) else hooks[i].chunkListeners)
  {
    returned, attached := [], [];
    var k := 0;
    while k < |beans|
      invariant 0 <= k <= |beans|
      invariant returned == beans[..k]
      invariant |attached| == k
      invariant forall i :: 0 <= i < k ==>
                  attached[i].executionListeners ==
                    (if ExecutionAttached(beans[i].kind, faults[i]) then AddOnce(hooks[i].executionListeners, listener) else hooks[i].executionListeners)
      invariant forall i :: 0 <= i < k ==>
                  attached[i].chunkListeners ==
                    (if ChunkAttached(beans[i].kind, faults[i]) then AddOnce(hooks[i].chunkListeners, listener) else hooks[i].chunkListeners)
    {
      var p := PostProcessAfterInitialization(beans[k], hooks[k], listener, faults[k]);
      returned := returned + [p.bean];
      attached := attached + [p.hooks];
      k := k + 1;
    }
  }

  /**
    Both listener lists grow, each by one, exactly for a tasklet step that
    accepts both registrations and does not hold the listener yet.
   */
  lemma FullyMonitoredIff(bean: Bean, hooks: Hooks, listener: ListenerRef, fault: Fault)
    ensures var r := PostProcessAfterInitialization(bean, hooks, listener, fault);
            (|r.hooks.executionListeners| == |hooks.executionListeners| + 1 &&
             |r.hooks.chunkListeners| == |hooks.chunkListeners| + 1)
            <==> bean.kind.TaskletStep? && fault.NoFault? &&
                 listener !in hooks.executionListeners && listener !in hooks.chunkListeners
  {
  }

  /**
    A step that already carries the listener, say from its own builder, is
    left with one copy of it: processing never registers a listener twice.
   */
  lemma ProcessingKeepsListenersDistinct(bean: Bean, hooks: Hooks, listener: ListenerRef, fault: Fault)
    requires NoDuplicates(hooks.executionListeners) && NoDuplicates(hooks.chunkListeners)
    ensures var r := PostProcessAfterInitialization(bean, hooks, listener, fault);
            NoDuplicates(r.hooks.executionListeners) && NoDuplicates(r.hooks.chunkListeners)
  {
    AddOnceKeepsDistinct(hooks.executionListeners, listener);
    AddOnceKeepsDistinct(hooks.chunkListeners, listener);
  }

  /** Post-processing a bean a second time with the same outcome changes nothing more. */
  lemma ProcessingIdempotent(bean: Bean, hooks: Hooks, listener: ListenerRef, fault: Fault)
    ensures var once := PostProcessAfterInitialization(bean, hooks, listener, fault);
            PostProcessAfterInitialization(bean, once.hooks, listener, fault) == once
  {
  }
}
