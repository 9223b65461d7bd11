// TaskQueue of quantum_task_queue_impl.h: the coroutine queue of one worker
// thread. New tasks go to a wait list; the worker moves the wait list onto
// the end of its run list when its cursor `_queueIt` runs off the end, and
// walks the run list resuming one task per step.
//
// A list iterator is a position in the run list (or its end). Erasing an
// element moves the later positions down by one, which keeps every other
// iterator on the element it designated.
module TaskQueues {
  import opened Wrappers
  import opened KeyStatistics
  import opened QueueStatistics
  import opened Tasks

  /** unsigned int wrap-around of `_queueRound`. */
  const UINT_MODULUS: int := 0x1_0000_0000

  /** A run-list iterator: an element's position, or end(). */
  datatype Pos = End | At(index: nat)

  datatype Queue = Queue(
    run: seq<TaskRef>,
    wait: seq<TaskRef>,
    queueIt: Pos,
    blockedIt: Pos,
    isBlocked: bool,
    isEmpty: bool,
    isIdle: bool,
    isAdvanced: bool,
    queueRound: nat,
    stats: Stats)

  /** TaskQueue::WorkItem: the task picked, its position and the blocked report. */
  datatype WorkItem = WorkItem(task: Option<TaskRef>, iter: Pos, isBlocked: bool, blockedQueueRound: nat)

  predicate ValidPos(run: seq<TaskRef>, p: Pos)
  {
    p.At? ==> p.index < |run|
  }

  /** Iterators point into the run list and the round is an unsigned int. */
  predicate Valid(q: Queue)
  {
    ValidPos(q.run, q.queueIt) && ValidPos(q.run, q.blockedIt) && q.queueRound < UINT_MODULUS
  }

  /** The element count the statistics keep is the number of queued tasks. */
  predicate Counted(q: Queue)
  {
    q.stats.numElements == |q.run| + |q.wait|
  }

  /** The constructor: both lists empty, both iterators at end(), idle and empty. */
  function Initial(): (q: Queue)
    ensures Valid(q) && Counted(q)
  {
    Queue([], [], End, End, false, true, true, false, 0, Reset())
  }

  function NextRound(round: nat): nat
  {
    (round + 1) % UINT_MODULUS
  }

  /**
   * doEnqueue: posted and element counts go up; a high-priority task goes to
   * the front of the wait list, any other to the back; the not-empty
   * condition is signalled (the second result) only when the wait list was
   * empty.
   */
  function DoEnqueue(q: Queue, t: TaskRef, highPriority: bool): (Queue, bool)
  {
    var wasEmpty := |q.wait| == 0;
    var s := Increment(Increment(q.stats, PostedCount), NumElements);
    var q' := q.(wait := if highPriority then [t] + q.wait else q.wait + [t],
                 stats := if highPriority then Increment(s, HighPriorityCount) else s);
    if wasEmpty then (q'.(isEmpty := false), true) else (q', false)
  }

  /** enqueue: a null task is ignored. */
  function Enqueue(q: Queue, tasks: TaskTable, task: Option<TaskRef>): (Queue, bool)
    requires task.Some? ==> task.value in tasks
  {
    if task.None? then (q, false) else DoEnqueue(q, task.value, tasks[task.value].highPriority)
  }

  /** tryEnqueue: false for a null task or when the wait-list lock is taken (`locked` is what the try-lock got). */
  function TryEnqueue(q: Queue, tasks: TaskTable, task: Option<TaskRef>, locked: bool): (r: (bool, Queue, bool))
    requires task.Some? ==> task.value in tasks
    ensures r.0 <==> task.Some? && locked
    ensures !r.0 ==> r.1 == q && !r.2
  {
    if task.None? || !locked then (false, q, false)
    else var (q', signalled) := Enqueue(q, tasks, task); (true, q', signalled)
  }

  /** An iterator after an erase at position k: later positions move down by one. */
  function Shift(p: Pos, k: nat): Pos
  {
    if p.At? && p.index > k then At(p.index - 1) else p
  }

  /**
   * doDequeue: end() dequeues nothing. Otherwise the task is terminated and
   * erased; a blocked marker on it is reset to end(); when it is the cursor,
   * the cursor moves to the following element and is flagged as advanced;
   * the element count goes down.
   */
  function DoDequeue(q: Queue, tasks: TaskTable, iter: Pos): (Option<TaskRef>, Queue, TaskTable)
    requires ValidPos(q.run, iter) && (iter.At? ==> q.run[iter.index] in tasks)
  {
    if iter.End? then (None, q, tasks)
    else
      var k := iter.index;
      var t := q.run[k];
      var run := q.run[..k] + q.run[k + 1..];
      var q' := q.(run := run,
                   blockedIt := if q.blockedIt == iter then End else Shift(q.blockedIt, k),
                   queueIt := if q.queueIt == iter then (if k < |run| then At(k) else End) else Shift(q.queueIt, k),
                   isAdvanced := q.queueIt == iter || q.isAdvanced,
                   stats := DecNumElements(q.stats));
      (Some(t), q', tasks[t := Terminate(tasks[t]).0])
  }

  /**
   * acquireWaiting, called with the cursor at end(): an empty wait list
   * rewinds the cursor to the beginning and starts a new round (signalling
   * empty when the run list is empty too); otherwise the wait list is
   * spliced onto the end of the run list and the cursor lands on the first
   * spliced task, a new round starting only when the run list was empty.
   */
  function AcquireWaiting(q: Queue): (r: Queue)
    requires q.queueIt.End?
    ensures Valid(q) ==> Valid(r)
    ensures r.queueIt.At? <==> |r.run| > 0
  {
    var runWasEmpty := |q.run| == 0;
    if |q.wait| == 0 then
      q.(isEmpty := if runWasEmpty then true else q.isEmpty,
         queueIt := if runWasEmpty then End else At(0),
         queueRound := NextRound(q.queueRound))
    else
      q.(run := q.run + q.wait, wait := [],
         queueIt := At(|q.run|),
         queueRound := if runWasEmpty then NextRound(q.queueRound) else q.queueRound)
  }

  /** ++_queueIt. */
  function Advance(run: seq<TaskRef>, p: Pos): Pos
    requires p.At?
  {
    if p.index + 1 < |run| then At(p.index + 1) else End
  }

  /**
   * grabWorkItem: the cursor moves one step unless an erase already moved
   * it; at end() the wait list is acquired. The queue is idle exactly when
   * the run list is then empty, and the item is the task under the cursor
   * or, for an empty run list, the blocked report.
   */
  function GrabWorkItem(q: Queue): (r: (WorkItem, Queue))
    requires Valid(q)
    ensures Valid(r.1)
  {
    var q1 := if q.queueIt.At? && !q.isAdvanced then q.(queueIt := Advance(q.run, q.queueIt)) else q;
    var q2 := if q1.queueIt.End? then AcquireWaiting(q1) else q1;
    var q3 := q2.(isAdvanced := false, isIdle := |q2.run| == 0);
    if |q3.run| == 0 then (WorkItem(None, End, q3.isBlocked, q3.queueRound), q3)
    else (WorkItem(Some(q3.run[q3.queueIt.index]), q3.queueIt, false, 0), q3)
  }

  /**
   * onBlockedTask: the first blocked report remembers the task's position;
   * a second report at the same position marks the queue blocked. The item
   * takes the blocked flag and the round.
   */
  function OnBlockedTask(q: Queue, e: WorkItem): (Queue, WorkItem)
  {
    var q' := if q.blockedIt.End? then q.(blockedIt := e.iter)
              else if q.blockedIt == e.iter then q.(isBlocked := true, blockedIt := End)
              else q;
    (q', e.(isBlocked := q'.isBlocked, blockedQueueRound := q'.queueRound))
  }

  /** onActiveTask: any progress clears the blocked state. */
  function OnActiveTask(q: Queue, e: WorkItem): (Queue, WorkItem)
  {
    var q' := q.(isBlocked := false, blockedIt := End);
    (q', e.(isBlocked := false, blockedQueueRound := q'.queueRound))
  }

  /** Every `_next` link of the table names a task of the table. */
  predicate Closed(tasks: TaskTable)
  {
    forall r | r in tasks && tasks[r].next.Some? :: tasks[r].next.value in tasks
  }

  /** The item names the task at a run-list position, and that task is in the table. */
  predicate Picked(q: Queue, tasks: TaskTable, e: WorkItem)
  {
    e.task.Some? && e.iter.At? && e.iter.index < |q.run| && q.run[e.iter.index] == e.task.value && e.task.value in tasks
  }

  /** The task handleSuccess runs next: the successor, skipping (and terminating) one error handler. */
  function SuccessorAfterSuccess(tasks: TaskTable, t: TaskRef): (r: (Option<TaskRef>, TaskTable))
    requires t in tasks && Closed(tasks)
    ensures r.1.Keys == tasks.Keys && Closed(r.1)
    ensures r.0.Some? ==> r.0.value in tasks
  {
    var next := tasks[t].next;
    if next.Some? && tasks[next.value].kind == ErrorHandler then
      (tasks[next.value].next, tasks[next.value := Terminate(tasks[next.value]).0])
    else (next, tasks)
  }

  /** Enqueue the chosen successor, then dequeue the finished task (the tail both handlers share). */
  function EnqueueNextAndDequeue(q: Queue, tasks: TaskTable, e: WorkItem, next: Option<TaskRef>): (Queue, TaskTable)
    requires Picked(q, tasks, e) && (next.Some? ==> next.value in tasks)
  {
    var (q1, _) := Enqueue(q, tasks, next);
    var (_, q2, tasks2) := DoDequeue(q1, tasks, e.iter);
    (q2, tasks2)
  }

  /** handleSuccess: run the successor (past a skipped error handler) and count a completion. */
  function HandleSuccess(q: Queue, tasks: TaskTable, e: WorkItem): (Queue, TaskTable)
    requires Picked(q, tasks, e) && Closed(tasks)
  {
    var (next, tasks1) := SuccessorAfterSuccess(tasks, e.task.value);
    var (q2, tasks2) := EnqueueNextAndDequeue(q, tasks1, e, next);
    (q2.(stats := Increment(q2.stats, CompletedCount)), tasks2)
  }

  /**
   * handleError as written: ask the failing task itself for its error
   * handler or final task, enqueue it and count an error. A failing task
   * that is itself an error handler or final task answers itself.
   */
  function HandleErrorAsWritten(q: Queue, tasks: TaskTable, e: WorkItem, chain: seq<TaskRef>): (Queue, TaskTable)
    requires Picked(q, tasks, e) && IsChain(tasks, chain) && chain[0] == e.task.value
  {
    var (next, tasks1) := GetErrorHandlerOrFinalTask(tasks, chain);
    GetErrorHandlerOrFinalTaskSpec(tasks, chain);
    var (q2, tasks2) := EnqueueNextAndDequeue(q, tasks1, e, next);
    (q2.(stats := Increment(q2.stats, ErrorCount)), tasks2)
  }

  /** handleError, corrected: the handler to run is searched for among the failing task's successors. */
  function HandleError(q: Queue, tasks: TaskTable, e: WorkItem, chain: seq<TaskRef>): (Queue, TaskTable)
    requires Picked(q, tasks, e) && IsChain(tasks, chain) && chain[0] == e.task.value
  {
    var (next, tasks1) := SearchSuccessors(tasks, chain);
    var (q2, tasks2) := EnqueueNextAndDequeue(q, tasks1, e, next);
    (q2.(stats := Increment(q2.stats, ErrorCount)), tasks2)
  }

  /** handleException: the task is dequeued and nothing runs after it. */
  function HandleException(q: Queue, tasks: TaskTable, e: WorkItem): (Queue, TaskTable)
    requires Picked(q, tasks, e)
  {
    var (_, q', tasks') := DoDequeue(q, tasks, e.iter);
    (q', tasks')
  }

  /** size: the queued tasks, plus the one running when the worker is not idle. */
  function Size(q: Queue): Size
  {
    if q.isIdle then q.stats.numElements else Inc(q.stats.numElements)
  }

  predicate Empty(q: Queue)
  {
    Size(q) == 0
  }

  /**
   * processTask after the task ran: the return code picks the handler
   * (`None` stands for an exception escaping the run). Not-callable and any
   * code that is not one of the reserved ones count as errors.
   */
  function ProcessTask(q: Queue, tasks: TaskTable, e: WorkItem, rc: Option<int>, chain: seq<TaskRef>): (Queue, TaskTable, WorkItem)
    requires Picked(q, tasks, e) && Closed(tasks) && IsChain(tasks, chain) && chain[0] == e.task.value
  {
    if rc.None? then var (q', ts) := HandleException(q, tasks, e); (q', ts, e)
    else if rc.value == ALREADY_RESUMED || rc.value == BLOCKED || rc.value == SLEEPING then
      var (q', e') := OnBlockedTask(q, e); (q', tasks, e')
    else if rc.value == RUNNING then var (q', e') := OnActiveTask(q, e); (q', tasks, e')
    else if rc.value == SUCCESS then var (q', ts) := HandleSuccess(q, tasks, e); (q', ts, e)
    else var (q', ts) := HandleError(q, tasks, e, chain); (q', ts, e)
  }

  /**
   * handleException dequeues and terminates the failing task, enqueues
   * nothing after it, and counts neither a completion nor an error.
   */
  lemma HandleExceptionSpec(q: Queue, tasks: TaskTable, e: WorkItem)
    requires Valid(q) && Counted(q) && Picked(q, tasks, e)
    ensures var (q', ts) := HandleException(q, tasks, e);
            var t := e.task.value;
            Valid(q') && Counted(q') && ts == tasks[t := tasks[t].(terminated := true)] &&
            q'.run == q.run[..e.iter.index] + q.run[e.iter.index + 1..] && q'.wait == q.wait &&
            q'.stats.completedCount == q.stats.completedCount && q'.stats.errorCount == q.stats.errorCount
  {
    DoDequeueSpec(q, tasks, e.iter.index);
    DecNumElementsSpec(q.stats);
  }

  /** Room for one more element below the size_t wrap-around. */
  predicate HasRoom(q: Queue)
  {
    |q.run| + |q.wait| + 1 < SIZE_MODULUS
  }

  /**
   * doEnqueue puts the task at the front (high priority) or the back of the
   * wait list, leaves the run list and both iterators alone, counts a post,
   * and signals not-empty exactly on the wait list's 0 -> 1 transition.
   */
  lemma DoEnqueueSpec(q: Queue, t: TaskRef, highPriority: bool)
    requires Valid(q) && Counted(q) && HasRoom(q) && q.stats.postedCount + 1 < SIZE_MODULUS
    ensures var (q', signalled) := DoEnqueue(q, t, highPriority);
            Valid(q') && Counted(q') &&
            (highPriority ==> q'.wait[0] == t && q'.wait[1..] == q.wait) &&
            (!highPriority ==> q'.wait[|q'.wait| - 1] == t && q'.wait[..|q.wait|] == q.wait) &&
            q'.run == q.run && q'.queueIt == q.queueIt && q'.blockedIt == q.blockedIt &&
            q'.stats.postedCount == q.stats.postedCount + 1 &&
            q'.stats.completedCount == q.stats.completedCount && q'.stats.errorCount == q.stats.errorCount &&
            (signalled <==> |q.wait| == 0) && (signalled ==> !q'.isEmpty)
  {
    var s := Increment(q.stats, PostedCount);
    IncrementSpec(q.stats, PostedCount);
    IncrementSpec(s, NumElements);
    var s2 := Increment(s, NumElements);
    IncrementSpec(s2, HighPriorityCount);
    assert (q.wait + [t])[..|q.wait|] == q.wait;
  }

  /**
   * doDequeue of a position hands out the task there, terminates it and
   * erases it; every other iterator keeps designating its element, and a
   * cursor on the erased element moves to the element after it.
   */
  lemma DoDequeueSpec(q: Queue, tasks: TaskTable, k: nat)
    requires Valid(q) && Counted(q) && k < |q.run| && q.run[k] in tasks
    ensures var (t, q', ts) := DoDequeue(q, tasks, At(k));
            Valid(q') && Counted(q') &&
            t == Some(q.run[k]) && ts == tasks[q.run[k] := tasks[q.run[k]].(terminated := true)] &&
            q'.stats == DecNumElements(q.stats) &&
            q'.run == q.run[..k] + q.run[k + 1..] && q'.wait == q.wait &&
            (q.queueIt.At? && q.queueIt.index != k ==> q'.queueIt.At? && q'.run[q'.queueIt.index] == q.run[q.queueIt.index]) &&
            (q.blockedIt.At? && q.blockedIt.index != k ==> q'.blockedIt.At? && q'.run[q'.blockedIt.index] == q.run[q.blockedIt.index]) &&
            (q.queueIt == At(k) ==> q'.isAdvanced &&
                                    (k + 1 < |q.run| ==> q'.queueIt.At? && q'.run[q'.queueIt.index] == q.run[k + 1]) &&
                                    (k + 1 == |q.run| ==> q'.queueIt.End?)) &&
            (q.blockedIt == At(k) ==> q'.blockedIt.End?)
  {
    DecNumElementsSpec(q.stats);
  }

  /** Dequeuing end() changes nothing. */
  lemma DoDequeueEnd(q: Queue, tasks: TaskTable)
    ensures DoDequeue(q, tasks, End) == (None, q, tasks)
  {
  }

  /**
   * acquireWaiting appends the whole wait list, in order, to the end of the
   * run list and empties the wait list; the cursor lands on the first moved
   * task, or on the beginning when there was nothing to move.
   */
  lemma AcquireWaitingSpec(q: Queue)
    requires Valid(q) && Counted(q) && q.queueIt.End?
    ensures var q' := AcquireWaiting(q);
            Valid(q') && Counted(q') &&
            q'.run == q.run + q.wait && q'.wait == [] &&
            (|q.wait| > 0 ==> q'.queueIt == At(|q.run|) && q'.run[|q.run|] == q.wait[0]) &&
            (|q.wait| == 0 ==> q'.queueIt == (if |q.run| == 0 then End else At(0))) &&
            (q'.queueRound != q.queueRound <==> |q.run| == 0 || |q.wait| == 0) &&
            (|q.run| == 0 && |q.wait| == 0 ==> q'.isEmpty)
  {
    if |q.wait| == 0 {
      assert q.run + q.wait == q.run;
    }
  }

  /**
   * grabWorkItem keeps the count, only ever moves waiting tasks onto the end
   * of the run list, reports idle exactly when it found nothing to run, and
   * otherwise hands out the task under the cursor.
   */
  lemma GrabWorkItemSpec(q: Queue)
    requires Valid(q) && Counted(q)
    ensures var (e, q') := GrabWorkItem(q);
            Valid(q') && Counted(q') &&
            (q'.run == q.run || (q'.run == q.run + q.wait && q'.wait == [])) &&
            (q'.isIdle <==> |q'.run| == 0) && (e.task.None? <==> q'.isIdle) && !q'.isAdvanced &&
            (e.task.Some? ==> e.iter.At? && e.iter == q'.queueIt && e.iter.index < |q'.run| &&
                              q'.run[e.iter.index] == e.task.value && !e.isBlocked)
  {
    var q1 := if q.queueIt.At? && !q.isAdvanced then q.(queueIt := Advance(q.run, q.queueIt)) else q;
    if q1.queueIt.End? {
      AcquireWaitingSpec(q1);
    }
  }

  /** One blocked report remembers the position, a second in a row at the same position marks the queue blocked. */
  lemma BlockedTwiceMarksBlocked(q: Queue, e: WorkItem)
    requires q.blockedIt.End? && e.iter.At?
    ensures var (q1, e1) := OnBlockedTask(q, e);
            q1.blockedIt == e.iter && e1.isBlocked == q.isBlocked &&
            var (q2, e2) := OnBlockedTask(q1, e);
            q2.isBlocked && q2.blockedIt.End? && e2.isBlocked
  {
  }

  /**
   * A blocked report never clears the blocked flag and touches no list; an
   * active report always clears it, and the item carries the flag either way.
   */
  lemma BlockedAndActiveReports(q: Queue, e: WorkItem)
    ensures var (q1, e1) := OnBlockedTask(q, e);
            (q.isBlocked ==> q1.isBlocked) && q1.run == q.run && q1.wait == q.wait && q1.stats == q.stats &&
            e1.isBlocked == q1.isBlocked && e1.blockedQueueRound == q.queueRound
    ensures var (q2, e2) := OnActiveTask(q, e);
            !q2.isBlocked && q2.blockedIt.End? && !e2.isBlocked && q2.run == q.run && q2.wait == q.wait
  {
  }

  /**
   * handleSuccess dequeues the finished task, skips and terminates a
   * directly following error handler, enqueues what follows, and counts a
   * completion.
   */
  lemma HandleSuccessSpec(q: Queue, tasks: TaskTable, e: WorkItem)
    requires Valid(q) && Counted(q) && HasRoom(q) && Picked(q, tasks, e) && Closed(tasks)
    requires q.stats.postedCount + 1 < SIZE_MODULUS && q.stats.completedCount + 1 < SIZE_MODULUS
    ensures var (q', ts) := HandleSuccess(q, tasks, e);
            var t := e.task.value;
            var next := tasks[t].next;
            var skip := next.Some? && tasks[next.value].kind == ErrorHandler;
            Valid(q') && Counted(q') && ts[t].terminated &&
            q'.run == q.run[..e.iter.index] + q.run[e.iter.index + 1..] &&
            q'.stats.completedCount == q.stats.completedCount + 1 &&
            (skip ==> ts[next.value].terminated) &&
            var enqueued := if skip then tasks[next.value].next else next;
            (enqueued.None? ==> q'.wait == q.wait) &&
            (enqueued.Some? ==> q'.wait == [enqueued.value] + q.wait || q'.wait == q.wait + [enqueued.value])
  {
    var t := e.task.value;
    var (next, tasks1) := SuccessorAfterSuccess(tasks, t);
    EnqueueNextAndDequeueSpec(q, tasks1, e, next);
    var (q2, tasks2) := EnqueueNextAndDequeue(q, tasks1, e, next);
    IncrementSpec(q2.stats, CompletedCount);
  }

  /** The tail both handlers share: the successor is enqueued, the finished task terminated and erased. */
  lemma EnqueueNextAndDequeueSpec(q: Queue, tasks: TaskTable, e: WorkItem, next: Option<TaskRef>)
    requires Valid(q) && Counted(q) && HasRoom(q) && Picked(q, tasks, e) && (next.Some? ==> next.value in tasks)
    requires q.stats.postedCount + 1 < SIZE_MODULUS
    ensures var (q', ts) := EnqueueNextAndDequeue(q, tasks, e, next);
            var t := e.task.value;
            Valid(q') && Counted(q') && ts == tasks[t := tasks[t].(terminated := true)] &&
            q'.run == q.run[..e.iter.index] + q.run[e.iter.index + 1..] &&
            (next.None? ==> q'.wait == q.wait) &&
            (next.Some? ==> q'.wait == [next.value] + q.wait || q'.wait == q.wait + [next.value]) &&
            q'.stats.completedCount == q.stats.completedCount && q'.stats.errorCount == q.stats.errorCount
  {
    var q1 := Enqueue(q, tasks, next).0;
    EnqueueShape(q, tasks, next);
    DoDequeueSpec(q1, tasks, e.iter.index);
    var (_, q', ts) := DoDequeue(q1, tasks, e.iter);
    assert (q', ts) == EnqueueNextAndDequeue(q, tasks, e, next);
  }

  /** What enqueueing the successor (if any) does to the queue: one task more on the wait list, the run list as it was. */
  lemma EnqueueShape(q: Queue, tasks: TaskTable, next: Option<TaskRef>)
    requires Valid(q) && Counted(q) && HasRoom(q) && (next.Some? ==> next.value in tasks)
    requires q.stats.postedCount + 1 < SIZE_MODULUS
    ensures var q1 := Enqueue(q, tasks, next).0;
            Valid(q1) && Counted(q1) && q1.run == q.run &&
            (next.None? ==> q1 == q) &&
            (next.Some? ==> q1.wait == [next.value] + q.wait || q1.wait == q.wait + [next.value]) &&
            q1.stats.completedCount == q.stats.completedCount && q1.stats.errorCount == q.stats.errorCount
  {
    if next.Some? {
      var t, hp := next.value, tasks[next.value].highPriority;
      var q1 := DoEnqueue(q, t, hp).0;
      DoEnqueueSpec(q, t, hp);
      if hp {
        assert q1.wait == [t] + q1.wait[1..];
      } else {
        assert q1.wait == q1.wait[..|q.wait|] + [t];
      }
    }
  }

  /**
   * handleError (corrected) dequeues the failing task, enqueues the first
   * error handler or final task after it, if any, and counts an error; the
   * failing task is never put back.
   */
  lemma HandleErrorSpec(q: Queue, tasks: TaskTable, e: WorkItem, chain: seq<TaskRef>)
    requires Valid(q) && Counted(q) && HasRoom(q) && Picked(q, tasks, e) && IsChain(tasks, chain) && chain[0] == e.task.value
    requires q.stats.postedCount + 1 < SIZE_MODULUS && q.stats.errorCount + 1 < SIZE_MODULUS
    ensures var (q', ts) := HandleError(q, tasks, e, chain);
            var j := FirstHandler(tasks, chain, 1);
            Valid(q') && Counted(q') && ts[e.task.value].terminated &&
            (e.task.value !in q.wait ==> e.task.value !in q'.wait) &&
            q'.run == q.run[..e.iter.index] + q.run[e.iter.index + 1..] &&
            q'.stats.errorCount == q.stats.errorCount + 1 &&
            (j == |chain| ==> q'.wait == q.wait) &&
            (j < |chain| ==> q'.wait == [chain[j]] + q.wait || q'.wait == q.wait + [chain[j]])
  {
    var t := e.task.value;
    SearchSuccessorsSpec(tasks, chain);
    var (next, tasks1) := SearchSuccessors(tasks, chain);
    EnqueueNextAndDequeueSpec(q, tasks1, e, next);
    var (q2, tasks2) := EnqueueNextAndDequeue(q, tasks1, e, next);
    IncrementSpec(q2.stats, ErrorCount);
  }

  /**
   * handleError as written: when the failing task is itself an error handler
   * or a final task, it is put back on the wait list although it has just
   * been terminated, and the queue's element count stays where it was.
   */
  lemma FailingHandlerIsReenqueued(q: Queue, tasks: TaskTable, e: WorkItem, chain: seq<TaskRef>)
    requires Valid(q) && Counted(q) && HasRoom(q) && Picked(q, tasks, e) && IsChain(tasks, chain) && chain[0] == e.task.value
    requires q.stats.postedCount + 1 < SIZE_MODULUS && q.stats.errorCount + 1 < SIZE_MODULUS
    requires IsHandler(tasks[e.task.value].kind)
    ensures var (q', ts) := HandleErrorAsWritten(q, tasks, e, chain);
            e.task.value in q'.wait && ts[e.task.value].terminated && Counted(q') &&
            |q'.run| + |q'.wait| == |q.run| + |q.wait|
  {
    var t := e.task.value;
    EnqueueNextAndDequeueSpec(q, tasks, e, Some(t));
    var (q2, tasks2) := EnqueueNextAndDequeue(q, tasks, e, Some(t));
    IncrementSpec(q2.stats, ErrorCount);
  }

  /**
   * The re-enqueued task never leaves: its coroutine has finished, so every
   * later run answers AlreadyResumed, which takes the blocked path and
   * leaves both lists, the count and the task table as they were.
   */
  lemma FinishedTaskStaysQueued(q: Queue, tasks: TaskTable, e: WorkItem, chain: seq<TaskRef>,
                                callable: bool, blocked: bool, sleeping: bool, resumed: Resumption)
    requires Picked(q, tasks, e) && Closed(tasks) && IsChain(tasks, chain) && chain[0] == e.task.value
    ensures var (_, rc) := Run(Terminated, callable, blocked, sleeping, resumed);
            var (q', ts, _) := ProcessTask(q, tasks, e, Some(rc), chain);
            q'.run == q.run && q'.wait == q.wait && q'.stats == q.stats && ts == tasks
  {
    FinishedTaskStaysResumed(callable, blocked, sleeping, resumed);
  }

  /** Whatever the task answered, processing it keeps the iterators valid and the element count exact. */
  lemma ProcessTaskKeepsCount(q: Queue, tasks: TaskTable, e: WorkItem, rc: Option<int>, chain: seq<TaskRef>)
    requires Valid(q) && Counted(q) && HasRoom(q)
    requires Picked(q, tasks, e) && Closed(tasks) && IsChain(tasks, chain) && chain[0] == e.task.value
    requires q.stats.postedCount + 1 < SIZE_MODULUS
    requires q.stats.completedCount + 1 < SIZE_MODULUS && q.stats.errorCount + 1 < SIZE_MODULUS
    ensures var (q', _, _) := ProcessTask(q, tasks, e, rc, chain); Valid(q') && Counted(q')
  {
    var q' := ProcessTask(q, tasks, e, rc, chain).0;
    if rc.None? {
      assert q' == DoDequeue(q, tasks, e.iter).1;
      assert Valid(q') && Counted(q') by {
        DoDequeueSpec(q, tasks, e.iter.index);
      }
    } else if rc.value == ALREADY_RESUMED || rc.value == BLOCKED || rc.value == SLEEPING {
      assert q' == OnBlockedTask(q, e).0;
    } else if rc.value == RUNNING {
      assert q' == OnActiveTask(q, e).0;
    } else if rc.value == SUCCESS {
      assert q' == HandleSuccess(q, tasks, e).0;
      assert Valid(q') && Counted(q') by {
        HandleSuccessSpec(q, tasks, e);
      }
    } else {
      assert q' == HandleError(q, tasks, e, chain).0;
      assert Valid(q') && Counted(q') by {
        HandleErrorSpec(q, tasks, e, chain);
      }
    }
  }

  /** size counts the running task too; the queue is empty exactly when it is idle with nothing queued. */
  lemma SizeSpec(q: Queue)
    requires Counted(q) && HasRoom(q)
    ensures Size(q) == |q.run| + |q.wait| + (if q.isIdle then 0 else 1)
    ensures Empty(q) <==> q.isIdle && q.run == [] && q.wait == []
  {
  }
}

// The queue object: the same state in fields, updated in place by methods
// named after the C++ members, each tied to its step function above.
module TaskQueueObjects {
  import opened Wrappers
  import opened KeyStatistics
  import opened QueueStatistics
  import opened Tasks
  import Q = TaskQueues

  /** The shared task objects, each updated in place (terminate, reset of `_next`). */
  class TaskStore {
    var nodes: TaskTable

    constructor (nodes: TaskTable)
      ensures this.nodes == nodes
    {
      this.nodes := nodes;
    }

    method TerminateTask(t: TaskRef)
      requires t in nodes
      modifies this
      ensures nodes == old(nodes)[t := Terminate(old(nodes)[t]).0]
    {
      var (n, _) := Terminate(nodes[t]);
      nodes := nodes[t := n];
    }
  }

  class TaskQueue {
    var run: seq<TaskRef>
    var wait: seq<TaskRef>
    var queueIt: Q.Pos
    var blockedIt: Q.Pos
    var isBlocked: bool
    var isEmpty: bool
    var isIdle: bool
    var isAdvanced: bool
    var queueRound: nat
    const stats: QueueStats

    function Value(): Q.Queue
      reads this, stats
    {
      Q.Queue(run, wait, queueIt, blockedIt, isBlocked, isEmpty, isIdle, isAdvanced, queueRound, stats.Value())
    }

    constructor ()
      ensures Value() == Q.Initial() && fresh(stats)
    {
      run, wait := [], [];
      queueIt, blockedIt := Q.End, Q.End;
      isBlocked, isEmpty, isIdle, isAdvanced := false, true, true, false;
      queueRound := 0;
      stats := new QueueStats();
    }

    method DoEnqueue(t: TaskRef, highPriority: bool) returns (signalled: bool)
      modifies this, stats
      ensures (Value(), signalled) == Q.DoEnqueue(old(Value()), t, highPriority)
    {
      stats.IncPostedCount();
      stats.IncNumElements();
      var wasEmpty := |wait| == 0;
      if highPriority {
        wait := [t] + wait;
      } else {
        wait := wait + [t];
      }
      if highPriority {
        stats.IncHighPriorityCount();
      }
      signalled := false;
      if wasEmpty {
        isEmpty := false;
        signalled := true;
      }
    }

    method Enqueue(task: Option<TaskRef>, store: TaskStore) returns (signalled: bool)
      requires task.Some? ==> task.value in store.nodes
      modifies this, stats
      ensures (Value(), signalled) == Q.Enqueue(old(Value()), store.nodes, task)
    {
      if task.None? {
        return false;
      }
      signalled := DoEnqueue(task.value, store.nodes[task.value].highPriority);
    }

    method TryEnqueue(task: Option<TaskRef>, store: TaskStore, locked: bool) returns (ok: bool, signalled: bool)
      requires task.Some? ==> task.value in store.nodes
      modifies this, stats
      ensures (ok, Value(), signalled) == Q.TryEnqueue(old(Value()), store.nodes, task, locked)
    {
      if task.None? || !locked {
        return false, false;
      }
      signalled := Enqueue(task, store);
      ok := true;
    }

    method DoDequeue(iter: Q.Pos, store: TaskStore) returns (task: Option<TaskRef>)
      requires Q.ValidPos(run, iter) && (iter.At? ==> run[iter.index] in store.nodes)
      modifies this, stats, store
      ensures (task, Value(), store.nodes) == Q.DoDequeue(old(Value()), old(store.nodes), iter)
    {
      if iter.End? {
        return None;
      }
      var k := iter.index;
      if iter == blockedIt {
        blockedIt := Q.End;
      }
      var t := run[k];
      store.TerminateTask(t);
      if queueIt == iter {
        run := run[..k] + run[k + 1..];
        queueIt := if k < |run| then Q.At(k) else Q.End;
        isAdvanced := true;
      } else {
        run := run[..k] + run[k + 1..];
        queueIt := Q.Shift(queueIt, k);
      }
      blockedIt := Q.Shift(blockedIt, k);
      stats.DecrementNumElements();
      return Some(t);
    }

    method AcquireWaiting()
      requires queueIt.End?
      modifies this
      ensures Value() == Q.AcquireWaiting(old(Value()))
    {
      var runWasEmpty := |run| == 0;
      if |wait| == 0 {
        if runWasEmpty {
          isEmpty := true;
        }
        queueIt := if |run| == 0 then Q.End else Q.At(0);
        queueRound := Q.NextRound(queueRound);
        return;
      }
      if !runWasEmpty {
        queueIt := Q.At(|run| - 1);
      }
      run := run + wait;
      wait := [];
      if !runWasEmpty {
        queueIt := Q.At(queueIt.index + 1);
      } else {
        queueIt := Q.At(0);
        queueRound := Q.NextRound(queueRound);
      }
    }

    method GrabWorkItem() returns (item: Q.WorkItem)
      requires Q.Valid(Value())
      modifies this
      ensures (item, Value()) == Q.GrabWorkItem(old(Value()))
    {
      var acquire := false;
      if queueIt.End? {
        acquire := true;
      } else if !isAdvanced {
        queueIt := Q.Advance(run, queueIt);
        acquire := queueIt.End?;
      }
      if acquire {
        AcquireWaiting();
      }
      isAdvanced := false;
      isIdle := |run| == 0;
      if |run| == 0 {
        return Q.WorkItem(None, Q.End, isBlocked, queueRound);
      }
      return Q.WorkItem(Some(run[queueIt.index]), queueIt, false, 0);
    }

    method OnBlockedTask(entry: Q.WorkItem) returns (e: Q.WorkItem)
      modifies this
      ensures (Value(), e) == Q.OnBlockedTask(old(Value()), entry)
    {
      if blockedIt.End? {
        blockedIt := entry.iter;
      } else if blockedIt == entry.iter {
        isBlocked := true;
        blockedIt := Q.End;
      }
      e := entry.(isBlocked := isBlocked, blockedQueueRound := queueRound);
    }

    method OnActiveTask(entry: Q.WorkItem) returns (e: Q.WorkItem)
      modifies this
      ensures (Value(), e) == Q.OnActiveTask(old(Value()), entry)
    {
      isBlocked := false;
      blockedIt := Q.End;
      e := entry.(isBlocked := isBlocked, blockedQueueRound := queueRound);
    }

    method HandleSuccess(entry: Q.WorkItem, store: TaskStore)
      requires Q.Picked(Value(), store.nodes, entry) && Q.Closed(store.nodes)
      modifies this, stats, store
      ensures (Value(), store.nodes) == Q.HandleSuccess(old(Value()), old(store.nodes), entry)
    {
      var next := store.nodes[entry.task.value].next;
      if next.Some? && store.nodes[next.value].kind == ErrorHandler {
        var skipped := next.value;
        next := store.nodes[skipped].next;
        store.TerminateTask(skipped);
      }
      EnqueueNextAndDequeue(entry, store, next);
      stats.IncCompletedCount();
    }

    /** The part handleSuccess and handleError share: enqueue the task to run next, then dequeue the finished one. */
    method EnqueueNextAndDequeue(entry: Q.WorkItem, store: TaskStore, next: Option<TaskRef>)
      requires Q.Picked(Value(), store.nodes, entry) && (next.Some? ==> next.value in store.nodes)
      modifies this, stats, store
      ensures (Value(), store.nodes) == Q.EnqueueNextAndDequeue(old(Value()), old(store.nodes), entry, next)
    {
      var _ := Enqueue(next, store);
      var _ := DoDequeue(entry.iter, store);
    }

    /** handleError, corrected (see the step function): the handler is searched for after the failing task. */
    method HandleError(entry: Q.WorkItem, store: TaskStore, chain: seq<TaskRef>)
      requires Q.Picked(Value(), store.nodes, entry) && IsChain(store.nodes, chain) && chain[0] == entry.task.value
      modifies this, stats, store
      ensures (Value(), store.nodes) == Q.HandleError(old(Value()), old(store.nodes), entry, chain)
    {
      var (next, nodes) := SearchSuccessors(store.nodes, chain);
      store.nodes := nodes;
      EnqueueNextAndDequeue(entry, store, next);
      stats.IncErrorCount();
    }

    method HandleException(entry: Q.WorkItem, store: TaskStore)
      requires Q.Picked(Value(), store.nodes, entry)
      modifies this, stats, store
      ensures (Value(), store.nodes) == Q.HandleException(old(Value()), old(store.nodes), entry)
    {
      var _ := DoDequeue(entry.iter, store);
    }

    function Size(): (r: Size)
      reads this, stats
      ensures r == Q.Size(Value())
    {
      if isIdle then stats.numElements else Inc(stats.numElements)
    }
  }
}
