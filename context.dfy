// Context of quantum_context_impl.h: the handle of one coroutine in a
// continuation chain. It owns the promises of every task of the chain so
// far (the last one is its own), the task it runs, and the checks that
// guard which continuation may be attached and which queue ids are accepted.
module Contexts {
  import opened Wrappers
  import opened FutureStates
  import opened Tasks

  /** Identity of a promise in the shared promise list. */
  type PromiseRef = nat

  /** IQueue::QueueId. */
  const ANY: int := -1
  const SAME: int := -2

  /** The parts of the context's task the checks read. */
  datatype TaskInfo = TaskInfo(kind: TaskType, queueId: int, highPriority: bool)

  datatype Ctx = Ctx(promises: seq<PromiseRef>, terminated: bool, task: Option<TaskInfo>)

  /**
   * index: -1 names the last promise, 0 <= num < size names itself, any other
   * number throws NoState.
   */
  function Index(promises: seq<PromiseRef>, num: int): Outcome<nat>
    requires |promises| >= 1
  {
    if num < -1 || num >= |promises| then Throw(FutureError(NoState))
    else if num == -1 then Ok(|promises| - 1) else Ok(num)
  }

  /** The index is always a valid position, and it is the requested one or the last one. */
  lemma IndexSpec(promises: seq<PromiseRef>, num: int)
    requires |promises| >= 1
    ensures var r := Index(promises, num);
            (r.Ok? <==> -1 <= num < |promises|) &&
            (r.Ok? ==> r.value < |promises|) &&
            (r.Throw? ==> r.failure == FutureError(NoState)) &&
            (num == -1 ==> r == Ok(|promises| - 1)) &&
            (0 <= num < |promises| ==> r == Ok(num))
  {
  }

  /** The task types that may precede a continuation of type `requested`; an unrestricted type allows any. */
  predicate MayFollow(requested: TaskType, current: TaskType)
  {
    match requested
    case Continuation | ErrorHandler => current in {First, Continuation}
    case Final => current in {First, Continuation, ErrorHandler}
    case Termination => current in {First, Continuation, ErrorHandler, Final}
    case _ => true
  }

  /** validateTaskType: the context must have a task, and the requested type must be allowed after it. */
  function ValidateTaskType(task: Option<TaskInfo>, requested: TaskType): Outcome<()>
  {
    if task.None? then Throw(RuntimeError("Invalid task pointer"))
    else if !MayFollow(requested, task.value.kind) then Throw(RuntimeError("Restricted continuation method"))
    else Ok(())
  }

  /**
   * The continuation rules: then and onError attach only after First or
   * Continuation; finally also after ErrorHandler; end also after Final;
   * nothing attaches without a task.
   */
  lemma ValidateTaskTypeSpec(task: Option<TaskInfo>, requested: TaskType)
    ensures task.None? ==> ValidateTaskType(task, requested) == Throw(RuntimeError("Invalid task pointer"))
    ensures task.Some? && requested in {Continuation, ErrorHandler} ==>
              (ValidateTaskType(task, requested).Ok? <==> task.value.kind == First || task.value.kind == Continuation)
    ensures task.Some? && requested == Final ==>
              (ValidateTaskType(task, requested).Ok? <==> task.value.kind in {First, Continuation, ErrorHandler})
    ensures task.Some? && requested == Termination ==>
              (ValidateTaskType(task, requested).Ok? <==> task.value.kind in {First, Continuation, ErrorHandler, Final})
    ensures task.Some? && requested in {Standalone, First, IO} ==> ValidateTaskType(task, requested).Ok?
    ensures ValidateTaskType(task, requested).Throw? ==> ValidateTaskType(task, requested).failure.RuntimeError?
  {
  }

  /**
   * The rules are nested: whatever a continuation may follow, a final task
   * may follow, and whatever a final task may follow, a terminating end may
   * follow; nothing restricted attaches after a Termination, Standalone or IO task.
   */
  lemma ContinuationRulesNest(current: TaskType)
    ensures MayFollow(Continuation, current) <==> MayFollow(ErrorHandler, current)
    ensures MayFollow(Continuation, current) ==> MayFollow(Final, current)
    ensures MayFollow(Final, current) ==> MayFollow(Termination, current)
    ensures current in {Termination, Standalone, IO} ==>
              !MayFollow(Continuation, current) && !MayFollow(Final, current) && !MayFollow(Termination, current)
  {
  }

  /** validateContext: waiting on itself as the synchronisation object is refused. */
  function ValidateContext(self: nat, sync: nat): (r: Outcome<()>)
    ensures r.Throw? <==> self == sync
  {
    if self == sync then Throw(RuntimeError("Must use different synchronization object")) else Ok(())
  }

  /** getPrev: the promise before the last one; fewer than two promises throw NoState. */
  function PrevIndex(promises: seq<PromiseRef>): Outcome<nat>
    requires |promises| >= 1
  {
    if |promises| < 2 then Throw(FutureError(NoState)) else Index(promises, |promises| - 2)
  }

  /** getPrev reads the promise just before the context's own, and throws NoState for a context that heads its chain. */
  lemma PrevIndexSpec(promises: seq<PromiseRef>)
    requires |promises| >= 1
    ensures PrevIndex(promises).Throw? <==> |promises| == 1
    ensures PrevIndex(promises).Throw? ==> PrevIndex(promises).failure == FutureError(NoState)
    ensures PrevIndex(promises).Ok? ==> PrevIndex(promises).value + 1 == Index(promises, -1).value
  {
  }

  /** postImpl's queue id: anything below Same is refused, Same means the current task's queue. */
  function PostQueueId(queueId: int, task: Option<TaskInfo>): Outcome<int>
    requires queueId == SAME ==> task.Some?
  {
    if queueId < SAME then Throw(RuntimeError("Invalid coroutine queue id"))
    else if queueId == SAME then Ok(task.value.queueId)
    else Ok(queueId)
  }

  /** postAsyncIoImpl: anything below Any is refused. */
  function PostAsyncIoQueueId(queueId: int): Outcome<int>
  {
    if queueId < ANY then Throw(RuntimeError("Invalid coroutine queue id")) else Ok(queueId)
  }

  /** The accepted queue ids: postImpl keeps every id from Any up and resolves Same; postAsyncIoImpl keeps every id from Any up. */
  lemma QueueIdChecksSpec(queueId: int, task: Option<TaskInfo>)
    requires queueId == SAME ==> task.Some?
    ensures PostQueueId(queueId, task).Throw? <==> queueId < SAME
    ensures queueId >= ANY ==> PostQueueId(queueId, task) == Ok(queueId)
    ensures queueId == SAME ==> PostQueueId(queueId, task) == Ok(task.value.queueId)
    ensures PostAsyncIoQueueId(queueId).Throw? <==> queueId < ANY
    ensures PostAsyncIoQueueId(queueId).Ok? ==> PostAsyncIoQueueId(queueId).value == queueId
  {
  }

  /** The context built by thenImpl: the predecessor's promises plus one, a task of the requested type on the same queue with the same priority. */
  function Then(ctx: Ctx, kind: TaskType, p: PromiseRef): Outcome<Ctx>
  {
    match ValidateTaskType(ctx.task, kind)
    case Throw(e) => Throw(e)
    case Ok(_) => Ok(Ctx(ctx.promises + [p], false, Some(TaskInfo(kind, ctx.task.value.queueId, ctx.task.value.highPriority))))
  }

  /**
   * A continuation keeps every earlier promise in place and adds its own at
   * the end; its getPrev reads the promise its predecessor owned, and its
   * index(-1) its own new promise.
   */
  lemma ThenSpec(ctx: Ctx, kind: TaskType, p: PromiseRef)
    requires |ctx.promises| >= 1
    ensures var r := Then(ctx, kind, p);
            (r.Ok? <==> ValidateTaskType(ctx.task, kind).Ok?) &&
            (r.Ok? ==>
               r.value.promises[..|ctx.promises|] == ctx.promises &&
               |r.value.promises| == |ctx.promises| + 1 &&
               Index(r.value.promises, -1) == Ok(|ctx.promises|) && r.value.promises[|ctx.promises|] == p &&
               PrevIndex(r.value.promises) == Ok(|ctx.promises| - 1) &&
               r.value.task.value.queueId == ctx.task.value.queueId &&
               r.value.task.value.highPriority == ctx.task.value.highPriority &&
               r.value.task.value.kind == kind)
  {
    if ValidateTaskType(ctx.task, kind).Ok? {
      assert (ctx.promises + [p])[..|ctx.promises|] == ctx.promises;
    }
  }

  /**
   * terminate: the first call terminates the context's own (last) promise
   * and drops the task; later calls do nothing. The second result is the
   * promise terminated, if any.
   */
  function TerminateStep(ctx: Ctx): (Ctx, Option<PromiseRef>)
    requires |ctx.promises| >= 1
  {
    if ctx.terminated then (ctx, None)
    else (ctx.(terminated := true, task := None), Some(ctx.promises[|ctx.promises| - 1]))
  }

  /** Terminating twice terminates the own promise once, and keeps the promise list. */
  lemma TerminateOnce(ctx: Ctx)
    requires |ctx.promises| >= 1
    ensures var (c1, p1) := TerminateStep(ctx);
            var (c2, p2) := TerminateStep(c1);
            c1.terminated && (!ctx.terminated ==> c1.task.None?) && c1.promises == ctx.promises &&
            c2 == c1 && p2.None? &&
            (p1.Some? <==> !ctx.terminated) &&
            (p1.Some? ==> p1.value == ctx.promises[Index(ctx.promises, -1).value])
  {
  }

  /** The context object. */
  class Context {
    var promises: seq<PromiseRef>
    var terminated: bool
    var task: Option<TaskInfo>

    function Value(): Ctx
      reads this
    {
      Ctx(promises, terminated, task)
    }

    ghost predicate Valid()
      reads this
    {
      |promises| >= 1
    }

    /** A context created for a posted task: its one promise. */
    constructor (p: PromiseRef)
      ensures Valid() && Value() == Ctx([p], false, None)
    {
      promises, terminated, task := [p], false, None;
    }

    /** A context built from another: a copy of its promises with one new promise appended. */
    constructor FromOther(other: Context, p: PromiseRef)
      requires other.Valid()
      ensures Valid() && Value() == Ctx(other.promises + [p], false, None)
    {
      promises := other.promises + [p];
      terminated, task := false, None;
    }

    method SetTask(t: TaskInfo)
      modifies this
      ensures Value() == old(Value()).(task := Some(t))
    {
      task := Some(t);
    }

    method Terminate() returns (terminatedPromise: Option<PromiseRef>)
      requires Valid()
      modifies this
      ensures Valid() && (Value(), terminatedPromise) == TerminateStep(old(Value()))
    {
      if terminated {
        return None;
      }
      terminated := true;
      task := None;
      terminatedPromise := Some(promises[|promises| - 1]);
    }
  }
}
