# quantum core, modelled in Dafny

A model of the core of quantum, Bloomberg's C++ coroutine dispatcher, with
proofs about it. quantum runs user tasks as coroutines on a fixed set of
coroutine threads, and blocking work as IO tasks on a separate pool of IO
threads. Results travel through promises and futures, optionally buffered.
Sequencers order tasks that share a sequence key.

The model covers:

- **Result channel:** the single-assignment shared state and its buffered,
  streaming variant; the buffer behind it; the promise that owns the state.
- **Sequencers:** `SequencerLite` and `experimental::Sequencer`, which keep one
  FIFO of pending tasks per key plus a universal FIFO. The original
  `Sequencer` chains each task onto the previous task of its key (its "tail").
- **Scheduler bookkeeping:**
  - the coroutine task queue, with its run list, wait list and cursor;
  - the IO queue and its poll-interval backoff;
  - the dispatcher core's queue counts, the `Any` range, and the
    shortest-queue choice;
  - the continuation-chain rules of tasks and contexts.
- **Small state machines and containers:**
  - task state transitions and the read/write spinlock counter;
  - the contiguous pool allocator's free-block stack;
  - the condition variable's waiter list;
  - task id generation and ordering;
  - queue and sequence-key statistics;
  - the batch partition of `forEachBatch` and the index and reduce stages of
    `mapReduce`.

Modelling conventions:

- **Exceptions:** an operation that may throw returns an `Outcome`, either
  `Ok(value)` or `Throw(failure)`, and the failure names the exception.
- **State in place:** where the source updates an object's fields, the
  object is a Dafny `class` with those fields. Each method's postcondition
  ties the new state to a pure step function of the old state. The
  properties the source promises are lemmas about those step functions.
- **Locks and waits:** the mutexes and spinlocks that guard the other
  components are removed. Every operation is one atomic step, and a
  blocking wait becomes a precondition that the awaited condition already
  holds. The read/write spinlock is itself modelled, as a state machine on
  its counter.
- **Identity:** `shared_ptr` identity becomes a reference number into a map
  of task records.
- **Unordered iteration:** the iteration order of an unordered map is an
  explicit sequence parameter that lists each key once.
- **Integers:** `size_t` and `unsigned int` counters wrap explicitly where
  the source lets them wrap.

## Model

| member | source | states |
|---|---|---|
| Auxiliary.IntersectionIffCommonBit | quantum/impl/quantum_auxiliary_impl.h:27-33 | isIntersection holds exactly when some single bit is set in both `long long` conversions, i.e. when their bitwise AND is non-zero |
| Auxiliary.IntersectionSymmetric | quantum/impl/quantum_auxiliary_impl.h:32 | isIntersection(a, b) == isIntersection(b, a) |
| Auxiliary.ZeroNeverIntersects | quantum/impl/quantum_auxiliary_impl.h:32 | a zero argument intersects nothing, on either side |
| Auxiliary.NonZeroIntersectsItself | quantum/impl/quantum_auxiliary_impl.h:32 | every value whose `long long` conversion is non-zero intersects itself |
| Buffers.PushClosed | quantum/impl/quantum_buffer_impl.h:35-38 | push on a closed buffer returns Closed and leaves the contents unchanged |
| Buffers.PushOpen | quantum/impl/quantum_buffer_impl.h:39-40 | push on an open buffer appends at the back, returns DataPosted, and the size grows by 1 |
| Buffers.PullEmpty | quantum/impl/quantum_buffer_impl.h:46-49 | pull on an empty buffer yields nothing, changes nothing, and returns Closed if closed, else DataPending |
| Buffers.PullNonEmpty | quantum/impl/quantum_buffer_impl.h:50-52 | pull on a non-empty buffer returns the front item with DataReceived and removes it |
| Buffers.PushValue | quantum/impl/quantum_buffer_impl.h:33-41 | push: refused on a closed buffer, else appended at the back; stated by Buffers.PushClosed, Buffers.PushOpen and Buffers.PushOrderIsPullOrder |
| Buffers.PullValue | quantum/impl/quantum_buffer_impl.h:44-53 | pull: the front item, or a status saying whether more may come; stated by Buffers.PullEmpty and Buffers.PullNonEmpty |
| Buffers.CloseIdempotent | quantum/impl/quantum_buffer_impl.h:55-59 | close sets the flag, keeps the items, and a second close changes nothing |
| Buffers.CloseValue | quantum/impl/quantum_buffer_impl.h:55-59 | close: sets the flag and keeps the items; stated by Buffers.CloseIdempotent |
| Buffers.PushAllOpen | quantum/impl/quantum_buffer_impl.h:33-41 | pushing a sequence onto an open buffer appends all of it in order and leaves it open |
| Buffers.PullManyDrains | quantum/impl/quantum_buffer_impl.h:44-53 | enough pulls return exactly the queued items, front first |
| Buffers.PushOrderIsPullOrder | quantum/impl/quantum_buffer_impl.h:33-53 | FIFO: values pushed onto a new buffer are pulled in push order |
| Buffers.Buffer.constructor | quantum/impl/quantum_buffer_impl.h:25-29 | a new buffer is empty and open |
| Buffers.Buffer.Push | quantum/impl/quantum_buffer_impl.h:31-41 | new contents and status are those of the push step on the old contents |
| Buffers.Buffer.Pull | quantum/impl/quantum_buffer_impl.h:43-53 | new contents, status and value are those of the pull step on the old contents |
| Buffers.Buffer.Close | quantum/impl/quantum_buffer_impl.h:55-59 | the buffer becomes closed with its items kept |
| Buffers.Buffer.IsClosed | quantum/impl/quantum_buffer_impl.h:61-65 | reports the closed flag |
| Buffers.Buffer.Size | quantum/impl/quantum_buffer_impl.h:67-71 | reports the number of queued items |
| Buffers.Buffer.IsEmpty | quantum/impl/quantum_buffer_impl.h:73-77 | true exactly when no item is queued |
| Buffers.Buffer.MoveFrom | quantum/quantum_buffer.h:84-86 | the implicit move assignment: this takes the other's items and flag, the other keeps its flag and is left empty |
| ConditionVariables.NotifyOne | quantum/impl/quantum_condition_variable_impl.h:51-62 | the notifyOne step; stated by ConditionVariables.NotifyOneSpec |
| ConditionVariables.NotifyAll | quantum/impl/quantum_condition_variable_impl.h:76-86 | the notifyAll step; stated by ConditionVariables.NotifyAllSpec and ConditionVariables.NotifyAllIsNotifyOneEach |
| ConditionVariables.NotifyOneSpec | quantum/impl/quantum_condition_variable_impl.h:51-62 | no waiters: nothing changes; otherwise only the oldest waiter's flag becomes 1 and it leaves the list, every other flag is kept |
| ConditionVariables.NotifyAllSpec | quantum/impl/quantum_condition_variable_impl.h:76-86 | every waiter's flag becomes 1, no other flag changes, and the list is emptied |
| ConditionVariables.NotifyAllIsNotifyOneEach | quantum/impl/quantum_condition_variable_impl.h:51-86 | notifyAll equals one notifyOne per waiter, oldest first |
| ConditionVariables.NotifyOneTimesDrops | quantum/impl/quantum_condition_variable_impl.h:56-61 | after k notifyOne calls the first k waiters are gone and the rest wait in their order |
| ConditionVariables.Register | quantum/impl/quantum_condition_variable_impl.h:153-161 | the registering part of wait; stated by ConditionVariables.RegisterSpec |
| ConditionVariables.RegisterSpec | quantum/impl/quantum_condition_variable_impl.h:153-161 | wait on a live variable clears the caller's flag and queues it last (so it is not yet woken); on a destroyed one it changes nothing |
| ConditionVariables.RegisteredWaiterIsWokenInTurn | quantum/impl/quantum_condition_variable_impl.h:148-169 | a newly registered waiter is woken by the first notifyOne after one per earlier waiter |
| ConditionVariables.RegisterFor | quantum/impl/quantum_condition_variable_impl.h:182-200 | the locked part of waitFor; stated by ConditionVariables.ZeroWaitForSpec |
| ConditionVariables.ZeroWaitForSpec | quantum/impl/quantum_condition_variable_impl.h:188-197 | waitFor with zero time registers no waiter and answers false, or true on a destroyed variable |
| ConditionVariables.Finish | quantum/impl/quantum_condition_variable_impl.h:168 | the end of wait: the caller's flag goes back to -1; proved in ConditionVariables.FinishSpec and ConditionVariables.WaitRoundTrip |
| ConditionVariables.FinishSpec | quantum/impl/quantum_condition_variable_impl.h:168 | the end of wait sets the caller's flag to -1 and changes no other flag, the waiter list or the destroyed flag |
| ConditionVariables.WaitRoundTrip | quantum/impl/quantum_condition_variable_impl.h:148-169 | on a live variable with no other waiter, wait then notifyOne wakes the caller, and it leaves the list with its flag idle |
| ConditionVariables.FinishFor | quantum/impl/quantum_condition_variable_impl.h:220-224 | the end of waitFor; proved in ConditionVariables.FinishForSpec |
| ConditionVariables.FinishForSpec | quantum/impl/quantum_condition_variable_impl.h:220-224 | the flag is reset as in wait; the answer is true exactly when the wait did not time out; a timeout leaves no time, and a wake-up before the deadline hands back the unused, positive part of the duration |
| ConditionVariables.WaitForPredicate | quantum/impl/quantum_condition_variable_impl.h:227-245 | the corrected waitFor with a predicate; stated by ConditionVariables.WaitForPredicateTrueMeansSeen |
| ConditionVariables.WaitForPredicateTrueMeansSeen | quantum/impl/quantum_condition_variable_impl.h:227-245 | with the corrected zero-time path, a true answer means the predicate was seen true or the variable was destroyed |
| ConditionVariables.PredicateLoop | quantum/impl/quantum_condition_variable_impl.h:233-243 | the predicate loop of waitFor with a predicate; proved in ConditionVariables.PredicateLoopTrueMeansSeen |
| ConditionVariables.PredicateLoopTrueMeansSeen | quantum/impl/quantum_condition_variable_impl.h:233-243 | the predicate loop answers true only when the predicate was seen true or the variable was destroyed |
| ConditionVariables.WaitForPredicateAsWritten | quantum/impl/quantum_condition_variable_impl.h:227-245 | waitFor with a predicate as written; stated by ConditionVariables.ZeroTimeIgnoresPredicate and ConditionVariables.AgreeWithPositiveTime |
| ConditionVariables.ZeroTimeIgnoresPredicate | quantum/impl/quantum_condition_variable_impl.h:233-244 | as written, waitFor(mutex, 0, predicate) answers true although the predicate is false; the corrected version answers false |
| ConditionVariables.AgreeWithPositiveTime | quantum/impl/quantum_condition_variable_impl.h:233-243 | with a positive duration the code as written and the corrected version give the same answer |
| ConditionVariables.ConditionVariable.constructor | quantum/impl/quantum_condition_variable_impl.h:27-30 | no waiters and not destroyed |
| ConditionVariables.ConditionVariable.Destroy | quantum/impl/quantum_condition_variable_impl.h:32-37 | only the destroyed flag changes, to true |
| ConditionVariables.ConditionVariable.NotifyOneImpl | quantum/impl/quantum_condition_variable_impl.h:51-62 | the new state is the notifyOne step of the old |
| ConditionVariables.ConditionVariable.NotifyAllImpl | quantum/impl/quantum_condition_variable_impl.h:76-86 | the new state is the notifyAll step of the old |
| ConditionVariables.ConditionVariable.BeginWait | quantum/impl/quantum_condition_variable_impl.h:148-161 | the locked part of wait: the new state is the registration step |
| ConditionVariables.ConditionVariable.EndWait | quantum/impl/quantum_condition_variable_impl.h:162-169 | once woken, the caller's flag goes back to -1 |
| ConditionVariables.ConditionVariable.BeginWaitFor | quantum/impl/quantum_condition_variable_impl.h:182-200 | the locked part of waitFor: an early answer without registering when destroyed or given zero time, otherwise registration |
| ConditionVariables.ConditionVariable.EndWaitFor | quantum/impl/quantum_condition_variable_impl.h:201-225 | after a signal, destruction or the deadline, the flag is reset; the answer is "not timed out" and the remaining time is handed back |
| FutureStates.Code | src/quantum_future_state.h:31-40 | the enumerator values run from PromiseNotSatisfied = 1 to BufferClosed = 7 |
| FutureStates.CodeInjective | src/quantum_future_state.h:31-40 | distinct states have distinct values, and each enumerator has its value: PromiseNotSatisfied 1, PromiseAlreadySatisfied 2, BrokenPromise 3, FutureAlreadyRetrieved 4, NoState 5, BufferingData 6, BufferClosed 7 |
| Wrappers.IntToString | quantum/util/impl/quantum_sequencer_lite_impl.h:251 | std::to_string of an int: a leading '-' exactly for a negative value, followed by decimal digits that read back as the absolute value |
| Wrappers.NatToString | quantum/util/impl/quantum_sequencer_lite_impl.h:251 | non-empty decimal digits with no leading zero |
| Wrappers.NatToStringValue | quantum/util/impl/quantum_sequencer_lite_impl.h:251 | the digits read back as the number |
| Contexts.Index | quantum/impl/quantum_context_impl.h:710-718 | the promise index check; stated by Contexts.IndexSpec |
| Contexts.IndexSpec | quantum/impl/quantum_context_impl.h:710-718 | index accepts exactly -1 .. size-1, -1 naming the last promise and any other accepted number itself; every other number throws NoState |
| Contexts.ValidateTaskType | quantum/impl/quantum_context_impl.h:720-763 | validateTaskType; stated by Contexts.ValidateTaskTypeSpec |
| Contexts.ValidateTaskTypeSpec | quantum/impl/quantum_context_impl.h:720-763 | no task throws "Invalid task pointer"; then/onError are allowed exactly after First or Continuation, finally also after ErrorHandler, end also after Final; the other types are unrestricted; every refusal is a runtime_error |
| Contexts.ContinuationRulesNest | quantum/impl/quantum_context_impl.h:727-756 | the allowed predecessors of then and onError coincide and nest inside those of finally, which nest inside those of end; nothing restricted attaches after a Termination, Standalone or IO task |
| Contexts.ValidateContext | quantum/impl/quantum_context_impl.h:766-772 | throws exactly when the synchronisation object is the context itself |
| Contexts.PrevIndexSpec | quantum/impl/quantum_context_impl.h:1259-1268 | getPrev throws NoState exactly for a one-promise context, and otherwise reads the promise just before the context's own |
| Contexts.PrevIndex | quantum/impl/quantum_context_impl.h:1259-1268 | getPrev's index, NoState for a chain of one; stated by Contexts.PrevIndexSpec |
| Contexts.PostQueueId | quantum/impl/quantum_context_impl.h:1443-1466 | the queue id checks of postImpl; stated by Contexts.QueueIdChecksSpec |
| Contexts.QueueIdChecksSpec | quantum/impl/quantum_context_impl.h:977-995 | postImpl (lines 1444-1466) refuses exactly the ids below Same, keeps every id from Any up and resolves Same to the current task's queue; postAsyncIoImpl refuses exactly the ids below Any and keeps the rest |
| Contexts.PostAsyncIoQueueId | quantum/impl/quantum_context_impl.h:977-995 | postAsyncIoImpl's queue-id check; stated by Contexts.QueueIdChecksSpec |
| Contexts.Then | quantum/impl/quantum_context_impl.h:827-849 | the continuation step; stated by Contexts.ThenSpec |
| Contexts.ThenSpec | quantum/impl/quantum_context_impl.h:827-849 | a continuation is created exactly when validateTaskType (called by then/onError/finally/end at lines 856-925) accepts; it keeps every earlier promise in place, adds its own last, its getPrev and index(-1) name the predecessor's and its own promise, and its task keeps the queue id and priority with the requested type |
| Contexts.TerminateOnce | quantum/impl/quantum_context_impl.h:653-663 | the first terminate terminates the own (last) promise and drops the task; a second one changes nothing and terminates nothing; the promise list is kept |
| Contexts.TerminateStep | quantum/impl/quantum_context_impl.h:653-663 | terminate: only the first call terminates the own promise; stated by Contexts.TerminateOnce |
| Contexts.Context.constructor | quantum/impl/quantum_context_impl.h:625-633 | a new context holds one promise, is not terminated and has no task |
| Contexts.Context.FromOther | quantum/impl/quantum_context_impl.h:635-646 | a context built from another copies its promises and appends a new one |
| Contexts.Context.SetTask | quantum/impl/quantum_context_impl.h:775-779 | only the task changes |
| Contexts.Context.Terminate | quantum/impl/quantum_context_impl.h:653-663 | the new state and the terminated promise are those of the terminate step |
| DispatcherCores.MakeCore | quantum/impl/quantum_dispatcher_core_impl.h:26-69 | the constructor; stated by DispatcherCores.MakeCoreSpec |
| DispatcherCores.MakeCoreSpec | quantum/impl/quantum_dispatcher_core_impl.h:26-69 | the constructor always builds at least one IO queue (numIoThreads <= 0 gives 1), throws length_error exactly for a coroutine count below -1 (the vector reserve), -1 taking the hardware concurrency and 0 giving 1, and keeps the configured `Any` range exactly when it is a non-empty range of existing coroutine queues, otherwise 0 .. count-1 |
| DispatcherCores.AnyRange | quantum/impl/quantum_dispatcher_core_impl.h:36-46 | the Any range is kept only within [0, n), else all queues; stated by DispatcherCores.MakeCoreSpec |
| DispatcherCores.SharedQueuesSpec | quantum/impl/quantum_dispatcher_core_impl.h:57-69 | a coroutine queue is attached to the shared `Any` queue exactly when sharing is on and its id lies in the `Any` range |
| DispatcherCores.ShortestFromSpec | quantum/impl/quantum_dispatcher_core_impl.h:386-399 | from any state satisfying the search invariant, the rest of the loop ends in the lowest-index queue of least size, or in 0 when every queue holds the size_t maximum |
| DispatcherCores.ShortestQueue | quantum/impl/quantum_dispatcher_core_impl.h:383-401 | the shortest-queue search; stated by DispatcherCores.ShortestQueueSpec |
| DispatcherCores.ShortestQueueSpec | quantum/impl/quantum_dispatcher_core_impl.h:383-401 | post's search returns the lowest-index queue of minimum size in the `Any` range (hence the first empty queue when there is one); only when every queue in the range holds the size_t maximum does it fall back to queue 0 |
| DispatcherCores.SelectShortestQueue | quantum/impl/quantum_dispatcher_core_impl.h:383-399 | the loop with its early break at an empty queue computes exactly the search's result |
| DispatcherCores.PostRoute | quantum/impl/quantum_dispatcher_core_impl.h:369-413 | the routing of post; stated by DispatcherCores.PostRouteSpec |
| DispatcherCores.PostRouteSpec | quantum/impl/quantum_dispatcher_core_impl.h:369-413 | a null task is ignored; an explicit id below the count lands in that queue, one at or above it throws "Queue id out of bounds", a negative non-Any id throws out_of_range; `Any` goes to the shared queue when there is one and otherwise to the lowest-index shortest queue of the range; no route names a missing queue |
| DispatcherCores.PostAsyncIoRouteSpec | quantum/impl/quantum_dispatcher_core_impl.h:416-458 | a null task is ignored; `Any` goes to the first shared IO queue; an IO task lands in the queue it names exactly when the id is in range, and every other id throws |
| DispatcherCores.PostAsyncIoRoute | quantum/impl/quantum_dispatcher_core_impl.h:416-458 | postAsyncIo's choice of IO queue; stated by DispatcherCores.PostAsyncIoRouteSpec |
| DispatcherCores.SumZeroIffAllEmpty | quantum/impl/quantum_dispatcher_core_impl.h:162-266 | when each queue's empty() agrees with its size(), the sum of the sizes is 0 exactly when every queue is empty |
| DispatcherCores.Sum | quantum/impl/quantum_dispatcher_core_impl.h:162-230 | the sum of the queue sizes that coroSize and ioSize compute for All and Any; proved in DispatcherCores.SumZeroIffAllEmpty |
| DispatcherCores.SizeAndEmptyAgree | quantum/impl/quantum_dispatcher_core_impl.h:123-266 | size and empty throw for the same queue type and id; `All` with a specific id throws "Cannot specify queue id"; a coroutine id out of range throws "Invalid coroutine queue id"; otherwise empty holds exactly when size is 0 |
| DispatcherCores.QueueSize | quantum/impl/quantum_dispatcher_core_impl.h:123-141 | size; stated by DispatcherCores.SizeAndEmptyAgree and DispatcherCores.SumZeroIffAllEmpty |
| DispatcherCores.QueueEmpty | quantum/impl/quantum_dispatcher_core_impl.h:142-160 | empty; stated by DispatcherCores.SizeAndEmptyAgree |
| DispatcherCores.CoroSize | quantum/impl/quantum_dispatcher_core_impl.h:161-183 | coroSize; stated by DispatcherCores.SizeAndEmptyAgree and DispatcherCores.SumZeroIffAllEmpty |
| DispatcherCores.CoroEmpty | quantum/impl/quantum_dispatcher_core_impl.h:184-205 | coroEmpty; stated by DispatcherCores.SizeAndEmptyAgree |
| DispatcherCores.IoSize | quantum/impl/quantum_dispatcher_core_impl.h:206-233 | ioSize; stated by DispatcherCores.SizeAndEmptyAgree and DispatcherCores.SumZeroIffAllEmpty |
| DispatcherCores.IoEmpty | quantum/impl/quantum_dispatcher_core_impl.h:234-266 | ioEmpty; stated by DispatcherCores.SizeAndEmptyAgree |
| DispatcherCores.PostedTask.constructor | quantum/impl/quantum_dispatcher_core_impl.h:398 | the task carries the queue id it was created with |
| DispatcherCores.DispatcherCore.constructor | quantum/impl/quantum_dispatcher_core_impl.h:26-69 | the core is the one the constructor's rules compute from the configuration |
| DispatcherCores.DispatcherCore.Post | quantum/impl/quantum_dispatcher_core_impl.h:369-413 | the route is the post route; a task sent to a coroutine queue has its queue id overwritten with that queue's index; a task not routed through the search keeps its id |
| PoolManagers.Range | quantum/impl/quantum_contiguous_pool_manager_impl.h:92-95 | the freshly built free stack holds 0, 1, ..., size-1 in that order |
| PoolManagers.Run | quantum/impl/quantum_contiguous_pool_manager_impl.h:161-163 | the blocks a deallocation of n blocks at b pushes: b, b+1, ..., b+n-1 |
| PoolManagers.FilledSpec | quantum/impl/quantum_contiguous_pool_manager_impl.h:83-96 | after setBuffer every block is free, the stack names distinct blocks of the buffer, the pool is full and not empty, and no block is allocated |
| PoolManagers.FindContiguous | quantum/impl/quantum_contiguous_pool_manager_impl.h:250-264 | the findContiguous test on the free stack; stated by PoolManagers.FindContiguousSpec and PoolManagers.TopIsRun |
| PoolManagers.FindContiguousAsWritten | quantum/impl/quantum_contiguous_pool_manager_impl.h:140 | the test allocate makes as written, on n narrowed to 16 bits; stated by PoolManagers.NarrowingAdmitsOversize |
| PoolManagers.FindContiguousSpec | quantum/impl/quantum_contiguous_pool_manager_impl.h:250-264 | findContiguous fails when fewer than n blocks are free, and one free block always suffices |
| PoolManagers.Allocate | quantum/impl/quantum_contiguous_pool_manager_impl.h:133-149 | the corrected allocate step; stated by PoolManagers.AllocateSpec and PoolManagers.AllocateDeallocateRoundTrip |
| PoolManagers.AllocateAsWritten | quantum/impl/quantum_contiguous_pool_manager_impl.h:133-149 | allocate with the heap fallback as written, one object on the heap whatever n is; the narrowed check is PoolManagers.FindContiguousAsWritten; proved in PoolManagers.HeapFallbackTooSmall |
| PoolManagers.AllocateSpec | quantum/impl/quantum_contiguous_pool_manager_impl.h:133-149 | a pool allocation hands out the lowest block of the run b..b+n-1 on top of the stack, takes exactly those n off and leaves them returnable; otherwise only the heap count rises and the heap block holds n objects' bytes; a request for more blocks than are free always goes to the heap; the pool stays valid |
| PoolManagers.NarrowingAdmitsOversize | quantum/impl/quantum_contiguous_pool_manager_impl.h:140-142 | as written, n narrowed to 16 bits lets a request for 65537 blocks pass the check with one block free, which the unnarrowed check refuses |
| PoolManagers.HeapFallbackTooSmall | quantum/impl/quantum_contiguous_pool_manager_impl.h:147 | as written, the heap fallback for two 8-byte objects allocates 8 bytes; the corrected fallback allocates 16 |
| PoolManagers.TopIsRun | quantum/impl/quantum_contiguous_pool_manager_impl.h:256-262 | the run findContiguous accepts is b, b+1, ..., b+n-1 for its deepest block b |
| PoolManagers.PrefixAvoidsRun | quantum/impl/quantum_contiguous_pool_manager_impl.h:140-143 | after popping a run, none of its blocks is left on the free stack |
| PoolManagers.AllocateDeallocateRoundTrip | quantum/impl/quantum_contiguous_pool_manager_impl.h:133-171 | giving back what the last allocation of n blocks handed out restores the pool exactly, for pool and heap blocks alike |
| PoolManagers.Deallocate | quantum/impl/quantum_contiguous_pool_manager_impl.h:151-171 | the deallocate step; stated by PoolManagers.DeallocateKeeps and PoolManagers.AllocateDeallocateRoundTrip |
| PoolManagers.DeallocateKeeps | quantum/impl/quantum_contiguous_pool_manager_impl.h:152-164 | returning n blocks that are not free keeps the stack valid and pushes them on top in order |
| PoolManagers.CountsSpec | quantum/impl/quantum_contiguous_pool_manager_impl.h:189-211 | allocatedBlocks counts the blocks off the stack; isFull holds exactly when none is allocated, isEmpty exactly when all are |
| PoolManagers.PoolManager.constructor | quantum/impl/quantum_contiguous_pool_manager_impl.h:28-32 | no buffer yet, an empty stack and no heap blocks, for objects of the given size |
| PoolManagers.PoolManager.SetBuffer | quantum/impl/quantum_contiguous_pool_manager_impl.h:71-97 | a null buffer and a zero size are refused without change; otherwise the pool is the full free stack 0..size-1 |
| PoolManagers.PoolManager.FindContiguousLoop | quantum/impl/quantum_contiguous_pool_manager_impl.h:250-264 | the loop answers exactly the findContiguous predicate of the current stack |
| PoolManagers.PoolManager.AllocateBlocks | quantum/impl/quantum_contiguous_pool_manager_impl.h:133-149 | for any n >= 1, the new state and the pointer are those of the (corrected) allocation step |
| PoolManagers.PoolManager.AllocateFromPool | quantum/impl/quantum_contiguous_pool_manager_impl.h:140-144 | the pool branch of allocate: the new state and pointer are those of the allocate step; PoolManagers.AllocateSpec states what that step hands out |
| PoolManagers.PoolManager.AllocateFromHeap | quantum/impl/quantum_contiguous_pool_manager_impl.h:145-148 | the heap branch of allocate (with the corrected size): the new state and pointer are those of the allocate step; stated by PoolManagers.AllocateSpec |
| PoolManagers.PoolManager.DeallocateBlocks | quantum/impl/quantum_contiguous_pool_manager_impl.h:151-171 | the new state is that of the deallocation step: null ignored, pool blocks pushed back, heap blocks uncounted |
| PoolManagers.PoolManager.PushBlocks | quantum/impl/quantum_contiguous_pool_manager_impl.h:160-163 | the loop of deallocate: the returned indices b..b+n-1 are pushed on the free stack in order, nothing else changes; PoolManagers.DeallocateKeeps and PoolManagers.AllocateDeallocateRoundTrip state what that gives back |
| PoolManagers.PoolManager.Allocated | quantum/impl/quantum_contiguous_pool_manager_impl.h:189-193 | equals allocatedBlocks of the current pool, between 0 and the pool size |
| PoolManagers.PoolManager.Full | quantum/impl/quantum_contiguous_pool_manager_impl.h:201-205 | holds exactly when every block is on the free stack |
| PoolManagers.PoolManager.Empty | quantum/impl/quantum_contiguous_pool_manager_impl.h:207-211 | holds exactly when no block is on the free stack |
| Promises.TerminateIdempotent | quantum/impl/quantum_promise_impl.h:101-109 | terminate always leaves the flag set, acts only on its first call, and a second call changes nothing |
| Promises.TerminateBreaksPending | quantum/impl/quantum_promise_impl.h:101-109 | the first terminate of a pending promise breaks it, so a later set throws BrokenPromise |
| Promises.TerminateKeepsSatisfied | quantum/impl/quantum_promise_impl.h:101-109 | terminating a promise whose state has left PromiseNotSatisfied leaves the shared state as it was |
| Promises.TerminateView | quantum/impl/quantum_promise_impl.h:101-110 | terminate: only the first call acts, breaking a pending promise; stated by Promises.TerminateIdempotent, Promises.TerminateBreaksPending and Promises.TerminateKeepsSatisfied |
| Promises.NoStateThrows | quantum/impl/quantum_promise_impl.h:117-144 | without a shared state, set and setException throw NoState and change nothing |
| Promises.SetView | quantum/impl/quantum_promise_impl.h:139-145 | set through the promise; stated by Promises.NoStateThrows |
| Promises.SetExceptionView | quantum/impl/quantum_promise_impl.h:117-123 | setException through the promise; stated by Promises.NoStateThrows |
| Promises.Future.constructor | quantum/impl/quantum_future_impl.h:87-90 | the future holds the shared state it is given |
| Promises.Promise.constructor | quantum/impl/quantum_promise_impl.h:87-93 | a new promise owns a fresh shared state in PromiseNotSatisfied and is not terminated |
| Promises.Promise.Moved | quantum/quantum_promise.h:44-49 | the move constructor takes the other's shared state and copies its flag; the other is left without a state |
| Promises.Promise.Terminate | quantum/impl/quantum_promise_impl.h:101-109 | the new view is the terminate step of the old, on the same shared state |
| Promises.Promise.IsValid | quantum/impl/quantum_promise_impl.h:111-115 | valid exactly when a shared state exists |
| Promises.Promise.Set | quantum/impl/quantum_promise_impl.h:138-144 | NoState without a shared state, otherwise the shared state's set |
| Promises.Promise.SetException | quantum/impl/quantum_promise_impl.h:117-122 | NoState without a shared state, otherwise the shared state's setException |
| Promises.Promise.GetFuture | quantum/impl/quantum_promise_impl.h:124-166 | throws NoState exactly without a shared state; otherwise a new future that shares the promise's one state |
| Promises.BufferPromise.constructor | quantum/impl/quantum_promise_impl.h:87-93 | a new buffered promise owns a fresh buffered shared state and is not terminated |
| Promises.BufferPromise.Terminate | quantum/impl/quantum_promise_impl.h:101-109 | the first terminate breaks the buffered promise, later ones change nothing |
| Promises.BufferPromise.Push | quantum/impl/quantum_promise_impl.h:168-174 | NoState without a shared state, otherwise the buffered push |
| Promises.BufferPromise.CloseBuffer | quantum/impl/quantum_promise_impl.h:184-190 | NoState without a shared state, otherwise the buffered closeBuffer |
| QueueStatistics.Reset | quantum/impl/quantum_queue_statistics_impl.h:43-53 | reset zeroes every one of the seven counters |
| QueueStatistics.Get | quantum/impl/quantum_queue_statistics_impl.h:55-153 | the seven counter accessors; stated by QueueStatistics.SetSpec, QueueStatistics.IncrementSpec and QueueStatistics.AddAssignSpec |
| QueueStatistics.Set | quantum/impl/quantum_queue_statistics_impl.h:61-155 | a write to one named counter; stated by QueueStatistics.SetSpec |
| QueueStatistics.SetSpec | quantum/impl/quantum_queue_statistics_impl.h:61-155 | writing a counter sets that counter and leaves the other six alone |
| QueueStatistics.Increment | quantum/impl/quantum_queue_statistics_impl.h:61-155 | the inc* counters with wrap at 2^64; stated by QueueStatistics.IncrementSpec |
| QueueStatistics.IncrementSpec | quantum/impl/quantum_queue_statistics_impl.h:61-155 | each inc* raises its own counter by one, wrapping to 0 at 2^64, and leaves the other six alone |
| QueueStatistics.DecNumElements | quantum/impl/quantum_queue_statistics_impl.h:67-83 | decNumElements; stated by QueueStatistics.DecNumElementsSpec |
| QueueStatistics.DecNumElementsSpec | quantum/impl/quantum_queue_statistics_impl.h:67-83 | decNumElements lowers a positive element count by one, leaves 0 at 0 and changes no other counter |
| QueueStatistics.IncDecRoundTrip | quantum/impl/quantum_queue_statistics_impl.h:61-83 | incNumElements followed by decNumElements restores the statistics, below the wrap-around |
| QueueStatistics.AddAssign | quantum/impl/quantum_queue_statistics_impl.h:169-180 | operator+=; stated by QueueStatistics.AddAssignSpec and QueueStatistics.AddAssignLaws |
| QueueStatistics.AddAssignSpec | quantum/impl/quantum_queue_statistics_impl.h:169-180 | += adds every counter of the right side to the same counter, modulo 2^64 |
| QueueStatistics.AddSizeLaws | quantum/impl/quantum_queue_statistics_impl.h:172-178 | size_t addition is commutative and associative with 0 as unit |
| QueueStatistics.AddSize | quantum/impl/quantum_queue_statistics_impl.h:172-178 | size_t addition, wrapping at 2^64; stated by QueueStatistics.AddSizeLaws |
| QueueStatistics.AddAssignLaws | quantum/impl/quantum_queue_statistics_impl.h:169-188 | summing statistics (operator+ and +=) does not depend on order or grouping, and reset statistics add nothing |
| QueueStatistics.Plus | quantum/impl/quantum_queue_statistics_impl.h:182-188 | operator+ on a copy of the left side; stated by QueueStatistics.PlusSpec |
| QueueStatistics.PlusSpec | quantum/impl/quantum_queue_statistics_impl.h:182-188 | operator+ gives the componentwise sum modulo 2^64, and the same sum in either order |
| QueueStatistics.QueueStats.constructor | quantum/impl/quantum_queue_statistics_impl.h:25-29 | a new object has every counter at zero |
| QueueStatistics.QueueStats.Copied | quantum/impl/quantum_queue_statistics_impl.h:31-41 | the copy constructor takes every counter |
| QueueStatistics.QueueStats.ResetAll | quantum/impl/quantum_queue_statistics_impl.h:43-53 | every counter becomes zero |
| QueueStatistics.QueueStats.IncNumElements | quantum/impl/quantum_queue_statistics_impl.h:61-65 | the element count is incremented, nothing else changes |
| QueueStatistics.QueueStats.IncErrorCount | quantum/impl/quantum_queue_statistics_impl.h:91-95 | the error count is incremented, nothing else changes |
| QueueStatistics.QueueStats.IncSharedQueueErrorCount | quantum/impl/quantum_queue_statistics_impl.h:103-107 | the shared-queue error count is incremented, nothing else changes |
| QueueStatistics.QueueStats.IncCompletedCount | quantum/impl/quantum_queue_statistics_impl.h:115-119 | the completed count is incremented, nothing else changes |
| QueueStatistics.QueueStats.IncSharedQueueCompletedCount | quantum/impl/quantum_queue_statistics_impl.h:127-131 | the shared-queue completed count is incremented, nothing else changes |
| QueueStatistics.QueueStats.IncPostedCount | quantum/impl/quantum_queue_statistics_impl.h:139-143 | the posted count is incremented, nothing else changes |
| QueueStatistics.QueueStats.IncHighPriorityCount | quantum/impl/quantum_queue_statistics_impl.h:151-155 | the high-priority count is incremented, nothing else changes |
| QueueStatistics.QueueStats.CompareExchangeNumElements | quantum/impl/quantum_queue_statistics_impl.h:72 | the compare-exchange on the element count: on a match the count takes the desired value, otherwise the expected value takes the count |
| QueueStatistics.QueueStats.DecrementNumElements | quantum/impl/quantum_queue_statistics_impl.h:67-83 | the compare-exchange loop ends in the decNumElements step: one less, never below zero |
| QueueStatistics.QueueStats.Add | quantum/impl/quantum_queue_statistics_impl.h:169-180 | the new counters are the componentwise sums with the right side's counters |
| ReadWriteSpinLocks.TryLockRead | quantum/impl/quantum_read_write_spinlock_impl.h:39-57 | one tryLockRead attempt on the counter; stated by ReadWriteSpinLocks.TryLockReadSpec |
| ReadWriteSpinLocks.TryLockReadSpec | quantum/impl/quantum_read_write_spinlock_impl.h:39-57 | tryLockRead fails exactly when write-locked and then changes nothing; otherwise the lock is read-locked with one more reader |
| ReadWriteSpinLocks.TryLockWrite | quantum/impl/quantum_read_write_spinlock_impl.h:59-64 | one tryLockWrite attempt; stated by ReadWriteSpinLocks.TryLockWriteSpec |
| ReadWriteSpinLocks.TryLockWriteSpec | quantum/impl/quantum_read_write_spinlock_impl.h:59-64 | tryLockWrite succeeds exactly on a free lock, which it write-locks with no readers; otherwise nothing changes |
| ReadWriteSpinLocks.UnlockRead | quantum/impl/quantum_read_write_spinlock_impl.h:66-84 | one unlockRead step; stated by ReadWriteSpinLocks.LockRoundTrips and ReadWriteSpinLocks.StatesPartition |
| ReadWriteSpinLocks.UnlockWrite | quantum/impl/quantum_read_write_spinlock_impl.h:86-91 | one unlockWrite step; stated by ReadWriteSpinLocks.LockRoundTrips and ReadWriteSpinLocks.StatesPartition |
| ReadWriteSpinLocks.LockRoundTrips | quantum/impl/quantum_read_write_spinlock_impl.h:39-91 | unlockRead undoes a successful tryLockRead, unlockWrite undoes tryLockWrite on a free lock; unlockRead fails exactly when not read-locked, and a failed unlockWrite changes nothing |
| ReadWriteSpinLocks.StatesPartition | quantum/impl/quantum_read_write_spinlock_impl.h:93-116 | a reachable counter is free, read-locked or write-locked, never read- and write-locked at once; isLocked is read- or write-locked; numReaders is non-negative and positive exactly when read-locked; no operation leaves the reachable range |
| ReadWriteSpinLocks.IsLocked | quantum/impl/quantum_read_write_spinlock_impl.h:93-98 | isLocked: the counter is not 0; stated by ReadWriteSpinLocks.StatesPartition |
| ReadWriteSpinLocks.IsReadLocked | quantum/impl/quantum_read_write_spinlock_impl.h:99-104 | isReadLocked: the counter is positive; stated by ReadWriteSpinLocks.StatesPartition and ReadWriteSpinLocks.TryLockReadSpec |
| ReadWriteSpinLocks.IsWriteLocked | quantum/impl/quantum_read_write_spinlock_impl.h:105-110 | isWriteLocked: the counter is -1; stated by ReadWriteSpinLocks.StatesPartition and ReadWriteSpinLocks.TryLockWriteSpec |
| ReadWriteSpinLocks.NumReaders | quantum/impl/quantum_read_write_spinlock_impl.h:111-116 | numReaders: 0 when write-locked, else the counter; stated by ReadWriteSpinLocks.StatesPartition |
| ReadWriteSpinLocks.HoldingUpdate | quantum/impl/quantum_read_write_spinlock_impl.h:118-226 | replacing one guard changes the count of live owning guards by exactly that guard's share |
| ReadWriteSpinLocks.HoldingAppend | quantum/impl/quantum_read_write_spinlock_impl.h:118-131 | a new guard adds exactly its own share to the count |
| ReadWriteSpinLocks.GuardLockOnlyIfNotOwned | quantum/impl/quantum_read_write_spinlock_impl.h:141-157 | a guard's lock and tryLock acquire only when it does not own the lock, and change nothing when it does |
| ReadWriteSpinLocks.GuardLock | quantum/impl/quantum_read_write_spinlock_impl.h:141-148 | Guard::lock; stated by ReadWriteSpinLocks.GuardLockOnlyIfNotOwned and ReadWriteSpinLocks.GuardOpKeeps |
| ReadWriteSpinLocks.GuardTryLock | quantum/impl/quantum_read_write_spinlock_impl.h:150-157 | Guard::tryLock; stated by ReadWriteSpinLocks.GuardLockOnlyIfNotOwned and ReadWriteSpinLocks.GuardOpKeeps |
| ReadWriteSpinLocks.NewGuardKeeps | quantum/impl/quantum_read_write_spinlock_impl.h:118-131 | creating a read or write guard, blocking or trying, keeps the counter equal to what the live owning guards account for |
| ReadWriteSpinLocks.NewReadGuard | quantum/impl/quantum_read_write_spinlock_impl.h:118-124 | ReadGuard(lock): the counter gains a reader and the guard owns its share; proved in ReadWriteSpinLocks.NewGuardKeeps and ReadWriteSpinLocks.UnlockThenDestroyReleasesOnce |
| ReadWriteSpinLocks.TryReadGuard | quantum/impl/quantum_read_write_spinlock_impl.h:126-130 | ReadGuard(lock, TryToLock): the guard owns a share exactly when tryLockRead succeeded; proved in ReadWriteSpinLocks.NewGuardKeeps |
| ReadWriteSpinLocks.NewWriteGuard | quantum/impl/quantum_read_write_spinlock_impl.h:173-179 | WriteGuard(lock): a free counter becomes write-locked and the guard owns it; proved in ReadWriteSpinLocks.NewGuardKeeps |
| ReadWriteSpinLocks.TryWriteGuard | quantum/impl/quantum_read_write_spinlock_impl.h:181-185 | WriteGuard(lock, TryToLock): the guard owns the lock exactly when tryLockWrite succeeded; proved in ReadWriteSpinLocks.NewGuardKeeps |
| ReadWriteSpinLocks.GuardOpKeeps | quantum/impl/quantum_read_write_spinlock_impl.h:141-226 | with the intended unlock, every guard operation keeps the counter equal to what the live owning guards hold: never a reader beside a writer, no release lost or repeated |
| ReadWriteSpinLocks.HoldingBound | quantum/impl/quantum_read_write_spinlock_impl.h:118-226 | the count of owning guards is at least any one guard's share |
| ReadWriteSpinLocks.GuardUnlockAsWritten | quantum/impl/quantum_read_write_spinlock_impl.h:165-171 | the guard unlock as written, keeping the ownership flag; stated by ReadWriteSpinLocks.UnlockThenDestroyReleasesTwice |
| ReadWriteSpinLocks.GuardUnlock | quantum/impl/quantum_read_write_spinlock_impl.h:165-171 | Guard::unlock as intended, clearing the ownership flag; stated by ReadWriteSpinLocks.UnlockThenDestroyReleasesOnce and ReadWriteSpinLocks.GuardOpKeeps |
| ReadWriteSpinLocks.GuardDestroy | quantum/impl/quantum_read_write_spinlock_impl.h:133-139 | the guard's destructor; stated by ReadWriteSpinLocks.UnlockThenDestroyReleasesOnce, ReadWriteSpinLocks.UnlockThenDestroyReleasesTwice and ReadWriteSpinLocks.GuardOpKeeps |
| ReadWriteSpinLocks.UnlockThenDestroyReleasesTwice | quantum/impl/quantum_read_write_spinlock_impl.h:133-171 | as written, a second reader that unlocks and is then destroyed releases twice: the counter reads 0 while the first reader still owns its share, and a writer can get in |
| ReadWriteSpinLocks.UnlockThenDestroyReleasesOnce | quantum/impl/quantum_read_write_spinlock_impl.h:133-171 | with unlock clearing the ownership flag, the same sequence keeps the first reader's share and shuts out the writer |
| ReadWriteSpinLocks.ReadWriteSpinLock.constructor | quantum/quantum_read_write_spinlock.h:150 | a new lock is free |
| ReadWriteSpinLocks.ReadWriteSpinLock.Locked | quantum/impl/quantum_read_write_spinlock_impl.h:93-98 | isLocked on the lock's counter; proved in ReadWriteSpinLocks.StatesPartition |
| ReadWriteSpinLocks.ReadWriteSpinLock.ReadLocked | quantum/impl/quantum_read_write_spinlock_impl.h:99-104 | isReadLocked on the lock's counter; proved in ReadWriteSpinLocks.StatesPartition |
| ReadWriteSpinLocks.ReadWriteSpinLock.WriteLocked | quantum/impl/quantum_read_write_spinlock_impl.h:105-110 | isWriteLocked on the lock's counter; proved in ReadWriteSpinLocks.StatesPartition |
| ReadWriteSpinLocks.ReadWriteSpinLock.Readers | quantum/impl/quantum_read_write_spinlock_impl.h:111-116 | numReaders on the lock's counter; proved in ReadWriteSpinLocks.StatesPartition |
| ReadWriteSpinLocks.ReadWriteSpinLock.CompareExchange | quantum/impl/quantum_read_write_spinlock_impl.h:44 | compare_exchange on the counter: on a match the counter takes the desired value, otherwise the expected value takes the counter |
| ReadWriteSpinLocks.ReadWriteSpinLock.LockRead | quantum/impl/quantum_read_write_spinlock_impl.h:27-31 | once no writer holds the lock, one more reader holds it |
| ReadWriteSpinLocks.ReadWriteSpinLock.LockWrite | quantum/impl/quantum_read_write_spinlock_impl.h:33-37 | once the lock is free, it is write-locked |
| ReadWriteSpinLocks.ReadWriteSpinLock.TryLockReadLoop | quantum/impl/quantum_read_write_spinlock_impl.h:39-57 | the compare-exchange loop ends in exactly the tryLockRead step |
| ReadWriteSpinLocks.ReadWriteSpinLock.TryLockWriteOnce | quantum/impl/quantum_read_write_spinlock_impl.h:59-64 | the single compare-exchange is exactly the tryLockWrite step |
| ReadWriteSpinLocks.ReadWriteSpinLock.UnlockReadLoop | quantum/impl/quantum_read_write_spinlock_impl.h:66-84 | the compare-exchange loop ends in exactly the unlockRead step |
| ReadWriteSpinLocks.ReadWriteSpinLock.UnlockWriteOnce | quantum/impl/quantum_read_write_spinlock_impl.h:86-91 | the single compare-exchange is exactly the unlockWrite step |
| ReadWriteSpinLocks.LockGuard.Locked | quantum/impl/quantum_read_write_spinlock_impl.h:118-124 | the blocking guard constructors: the guard owns the lock and the counter is acquired |
| ReadWriteSpinLocks.LockGuard.TryLocked | quantum/impl/quantum_read_write_spinlock_impl.h:126-131 | the trying guard constructors: the guard owns the lock exactly when the try succeeded |
| ReadWriteSpinLocks.LockGuard.AcquireLock | quantum/impl/quantum_read_write_spinlock_impl.h:154 | the guard's kind of try-lock on the counter |
| ReadWriteSpinLocks.LockGuard.ReleaseLock | quantum/impl/quantum_read_write_spinlock_impl.h:136-138 | the guard's kind of unlock on the counter |
| ReadWriteSpinLocks.LockGuard.Lock | quantum/impl/quantum_read_write_spinlock_impl.h:141-148 | the guard lock step |
| ReadWriteSpinLocks.LockGuard.TryLock | quantum/impl/quantum_read_write_spinlock_impl.h:150-157 | the guard tryLock step, answering the new ownership flag |
| ReadWriteSpinLocks.LockGuard.Unlock | quantum/impl/quantum_read_write_spinlock_impl.h:165-171 | the corrected unlock step: an owned lock is released and the flag cleared |
| ReadWriteSpinLocks.LockGuard.Destroy | quantum/impl/quantum_read_write_spinlock_impl.h:133-139 | the destructor releases the lock exactly when the guard owns it |
| KeyStatistics.IncrementPostedSpec | quantum/util/impl/quantum_sequence_key_statistics_impl.h:69-74 | incrementPostedTaskCount raises the posted count by one, wrapping to 0 at 2^64, and keeps the pending count |
| KeyStatistics.IncrementPosted | quantum/util/impl/quantum_sequence_key_statistics_impl.h:69-74 | incrementPostedTaskCount; stated by KeyStatistics.IncrementPostedSpec |
| KeyStatistics.IncrementPending | quantum/util/impl/quantum_sequence_key_statistics_impl.h:76-81 | incrementPendingTaskCount; stated by KeyStatistics.PendingSpec and KeyStatistics.PendingRoundTrip |
| KeyStatistics.DecrementPending | quantum/util/impl/quantum_sequence_key_statistics_impl.h:83-88 | decrementPendingTaskCount; stated by KeyStatistics.PendingSpec and KeyStatistics.PendingRoundTrip |
| KeyStatistics.PendingSpec | quantum/util/impl/quantum_sequence_key_statistics_impl.h:76-88 | incrementing and decrementing the pending count keep the posted count; below the wrap they move it by one, and decrementing 0 wraps to 2^64-1 |
| KeyStatistics.PendingRoundTrip | quantum/util/impl/quantum_sequence_key_statistics_impl.h:76-88 | incrementing then decrementing the pending count, or the other way round, restores the counters, wrap-around included |
| KeyStatistics.CopyTakesBoth | quantum/util/impl/quantum_sequence_key_statistics_impl.h:25-45 | the copy and move constructors and the move assignment take both counters |
| KeyStatistics.Copy | quantum/util/impl/quantum_sequence_key_statistics_impl.h:25-45 | the copy and move constructors and the move assignment; stated by KeyStatistics.CopyTakesBoth |
| KeyStatistics.Assign | quantum/util/impl/quantum_sequence_key_statistics_impl.h:47-53 | the copy assignment as intended; stated by KeyStatistics.AssignAgreesWithCopy |
| KeyStatistics.AssignAsWritten | quantum/util/impl/quantum_sequence_key_statistics_impl.h:47-53 | copy assignment as written; stated by KeyStatistics.AssignAsWrittenKeepsPending and KeyStatistics.AssignAsWrittenCounterexample |
| KeyStatistics.AssignAsWrittenKeepsPending | quantum/util/impl/quantum_sequence_key_statistics_impl.h:47-53 | the copy assignment as written takes the posted count but keeps its own pending count, so it equals a copy exactly when the pending counts already agree |
| KeyStatistics.AssignAsWrittenCounterexample | quantum/util/impl/quantum_sequence_key_statistics_impl.h:47-53 | assigning {posted 3, pending 2} to a fresh object yields {3, 0}, not the copy {3, 2} |
| KeyStatistics.AssignAgreesWithCopy | quantum/util/impl/quantum_sequence_key_statistics_impl.h:47-53 | the corrected copy assignment yields exactly the assigned counters, as the copy constructor does |
| KeyStatistics.SequenceKeyStatistics.constructor | quantum/util/quantum_sequence_key_statistics.h:36-64 | both counters start at zero |
| KeyStatistics.NewCounters | quantum/util/quantum_sequence_key_statistics.h:36-64 | both counters start at zero; proved in KeyStatistics.SequenceKeyStatistics.constructor and KeyStatistics.AssignAsWrittenCounterexample |
| KeyStatistics.SequenceKeyStatistics.Copied | quantum/util/impl/quantum_sequence_key_statistics_impl.h:25-37 | the copy and move constructors take both counters |
| KeyStatistics.SequenceKeyStatistics.CopyAssign | quantum/util/impl/quantum_sequence_key_statistics_impl.h:47-53 | the corrected copy assignment: both counters are taken from the other object |
| KeyStatistics.SequenceKeyStatistics.MoveAssign | quantum/util/impl/quantum_sequence_key_statistics_impl.h:39-45 | the move assignment takes both counters |
| KeyStatistics.SequenceKeyStatistics.IncrementPostedTaskCount | quantum/util/impl/quantum_sequence_key_statistics_impl.h:69-74 | the posted count is incremented, modulo 2^64 |
| KeyStatistics.SequenceKeyStatistics.IncrementPendingTaskCount | quantum/util/impl/quantum_sequence_key_statistics_impl.h:76-81 | the pending count is incremented, modulo 2^64 |
| KeyStatistics.SequenceKeyStatistics.DecrementPendingTaskCount | quantum/util/impl/quantum_sequence_key_statistics_impl.h:83-88 | the pending count is decremented, modulo 2^64 |
| SequencerCore.KeyNames | quantum/util/impl/quantum_sequencer_lite_impl.h:330 | the FIFO names of a key list, one per key and in the same order |
| SequencerCore.BlockingAfter | quantum/util/impl/quantum_sequencer_lite_impl.h:79-84 | replacing one FIFO changes the set of FIFOs a task waits in only at that FIFO |
| SequencerCore.ScheduleEffect | quantum/util/impl/quantum_sequencer_lite_impl.h:155-195 | scheduleTask leaves every FIFO and task alone and appends the task to the posted list |
| SequencerCore.PushEffect | quantum/util/impl/quantum_sequencer_lite_impl.h:79-84 | push_back: the task joins the end of the FIFO, the result is whether the FIFO was empty, and the task's pending key count rises by one exactly when it was not; nothing else changes |
| SequencerCore.Push | quantum/util/impl/quantum_sequencer_lite_impl.h:79-84 | push_back onto a FIFO, counting one more wait when it does not land at the head; stated by SequencerCore.PushEffect and SequencerCore.PushKeeps |
| SequencerCore.SeededEffect | quantum/util/impl/quantum_sequencer_experimental_impl.h:75-86 | seeding a new FIFO with the universal tasks adds one to the pending count of every universal task except the head |
| SequencerCore.Seeded | quantum/util/impl/quantum_sequencer_experimental_impl.h:75-86 | the wait counts after seeding a new key FIFO with the universal tasks; stated by SequencerCore.SeededEffect (every seeded task but the first waits once more) |
| SequencerCore.CreateKey | quantum/util/impl/quantum_sequencer_experimental_impl.h:71-87 | the corrected key creation, seeding without counting the head universal task; stated by SequencerCore.CreateKeyEffect and SequencerCore.CreateKeyKeeps |
| SequencerCore.CreateKeyEffect | quantum/util/impl/quantum_sequencer_experimental_impl.h:71-87 | a new key FIFO is a copy of the universal FIFO, and each universal task behind the head now also waits in it |
| SequencerCore.RemoveEntryEffect | quantum/util/impl/quantum_sequencer_lite_impl.h:94-117 | removePending(entry): nothing happens unless the task heads the FIFO; otherwise it is popped, the new head's count drops by one (0 wraps to UINT_MAX), and the new head is returned exactly when its count reaches 0 |
| SequencerCore.PushKeeps | quantum/util/impl/quantum_sequencer_lite_impl.h:79-84 | push_back keeps the sequencer invariant for every task but the one being enqueued |
| SequencerCore.CreateKeyKeeps | quantum/util/impl/quantum_sequencer_experimental_impl.h:71-87 | creating and seeding a key FIFO keeps the sequencer invariant |
| SequencerCore.ScheduleKeeps | quantum/util/impl/quantum_sequencer_lite_impl.h:155-195 | posting a ready task that was never posted restores the rule that a task is posted iff its count is 0 |
| SequencerCore.Schedule | quantum/util/impl/quantum_sequencer_lite_impl.h:155-195 | scheduleTask: lower the pending counts of the task's keys and of all tasks, then post it; stated by SequencerCore.ScheduleEffect and SequencerCore.ScheduleKeeps |
| SequencerCore.RemoveEntryKeeps | quantum/util/impl/quantum_sequencer_lite_impl.h:94-117 | popping a completed head keeps the invariant, and a released task has count 0 and is not yet posted |
| SequencerCore.RemoveEntry | quantum/util/impl/quantum_sequencer_lite_impl.h:94-117 | removePending(entry, task): pop the head and release the next task when its count reaches 0; stated by SequencerCore.RemoveEntryEffect and SequencerCore.RemoveEntryKeeps |
| SequencerCore.StepKeeps | quantum/util/impl/quantum_sequencer_lite_impl.h:128-151 | one removal step, with the posting of the released task, keeps the invariant |
| SequencerCore.ReadyIsHead | quantum/util/impl/quantum_sequencer_lite_impl.h:112-116 | a task whose pending key count is 0 heads every FIFO that holds it |
| SequencerCore.Complete | quantum/util/impl/quantum_sequencer_lite_impl.h:119-153 | the completion step; stated by SequencerCore.CompleteKeeps and SequencerCore.CompleteDomain |
| SequencerCore.CompleteKeeps | quantum/util/impl/quantum_sequencer_lite_impl.h:119-153 | the completion of a running task keeps the invariant and leaves the task in no FIFO |
| SequencerCore.RemoveAll | quantum/util/impl/quantum_sequencer_lite_impl.h:119-153 | the loop of removePending(task) over the task's FIFOs; stated by SequencerCore.CompleteKeeps and SequencerCore.CompleteDomain |
| SequencerCore.AddKeyedKeepsKeyed | quantum/util/impl/quantum_sequencer_experimental_impl.h:65-101 | addPendingTask(key, task) for a keyed task: the key is appended to the task's key data, the count rises iff the FIFO was not empty, and the result is whether the FIFO (or, for a new key, the universal FIFO) was empty |
| SequencerCore.AddKeyedKeepsUniversal | quantum/util/impl/quantum_sequencer_experimental_impl.h:88-100 | addPendingTask(key, task) for a universal task and an existing key is a push_back that records no key data |
| SequencerCore.AddUniversal | quantum/util/impl/quantum_sequencer_lite_impl.h:45-60 | addPendingTask(task): join the universal FIFO and count it posted and pending; stated by SequencerCore.EnqueueAllKeeps and SequencerCore.EnqueueAllPostsIffIdle |
| SequencerCore.AddKeyed | quantum/util/impl/quantum_sequencer_experimental_impl.h:65-101 | addPendingTask(key, task): create and seed a missing key, then join its FIFO; stated by SequencerCore.AddKeyedKeepsKeyed and SequencerCore.AddKeyedKeepsUniversal |
| SequencerCore.JoinKey | quantum/util/impl/quantum_sequencer_lite_impl.h:79-91 | the tail of addPendingTask(key, task): push_back, then record the key and count it for a keyed task; stated by SequencerCore.PushEffect and SequencerCore.AddKeyedKeepsKeyed |
| SequencerCore.Enqueue | quantum/util/impl/quantum_sequencer_lite_impl.h:297-341 | the corrected keyed enqueue, joining each distinct key once; stated by SequencerCore.EnqueueKeeps and SequencerCore.EnqueuePostsIffFree |
| SequencerCore.EnqueueKeeps | quantum/util/impl/quantum_sequencer_lite_impl.h:297-341 | for the corrected sequencer (each distinct key joined once, the head universal task not counted when a key is seeded): enqueueSingle and enqueueMultiple keep the invariant, put the task in each key's FIFO, and post it exactly when every addPendingTask returned true |
| SequencerCore.NewTask | quantum/util/impl/quantum_sequencer_lite_impl.h:254-264 | a new task with no keys and a zero wait count, counted posted and pending; stated by SequencerCore.EnqueueKeeps and SequencerCore.EnqueueDomain |
| SequencerCore.AddKeys | quantum/util/impl/quantum_sequencer_lite_impl.h:329-336 | the addPendingTask loop over the keys, skipping a key already joined (the corrected loop); stated by SequencerCore.EnqueuePostsIffFree and SequencerCore.EnqueueKeeps |
| SequencerCore.EnqueueAll | quantum/util/impl/quantum_sequencer_lite_impl.h:364-407 | the universal enqueue; stated by SequencerCore.EnqueueAllKeeps and SequencerCore.EnqueueAllPostsIffIdle |
| SequencerCore.EnqueueAllKeeps | quantum/util/impl/quantum_sequencer_lite_impl.h:364-407 | enqueueAllImpl keeps the invariant and the set of keys, puts the universal task in every FIFO, and posts it exactly when every addPendingTask returned true |
| SequencerCore.Trim | quantum/util/impl/quantum_sequencer_lite_impl.h:409-422 | trimSequenceKeys; stated by SequencerCore.TrimSpec and SequencerCore.TrimKeeps |
| SequencerCore.TrimKeeps | quantum/util/impl/quantum_sequencer_lite_impl.h:409-422 | dropping the keys with empty FIFOs keeps the invariant |
| SequencerCore.InitialInv | quantum/util/impl/quantum_sequencer_lite_impl.h:32-43 | the new sequencer, with no keys and no tasks, satisfies the invariant |
| SequencerCore.RunningHeadsItsQueues | quantum/util/impl/quantum_sequencer_lite_impl.h:160 | a posted task that has not completed heads every FIFO it sits in |
| SequencerCore.RunningTasksShareNoQueue | quantum/util/impl/quantum_sequencer_lite_impl.h:155-195 | for the corrected sequencer (each distinct key joined once, the head universal task not counted when a key is seeded): two running tasks never share a FIFO, so tasks with a common key never run at the same time |
| SequencerCore.HeadEverywhereIsPosted | quantum/util/impl/quantum_sequencer_lite_impl.h:112-116 | for the corrected sequencer (each distinct key joined once, the head universal task not counted when a key is seeded): no stall: a pending task that heads every FIFO it sits in has been posted |
| SequencerCore.EnqueuePostsIffFree | quantum/util/impl/quantum_sequencer_lite_impl.h:329-340 | for the corrected sequencer (each distinct key joined once, the head universal task not counted when a key is seeded): enqueue(keys, ...) posts the task at once iff none of its keys has a pending task |
| SequencerCore.EnqueueAllPostsIffIdle | quantum/util/impl/quantum_sequencer_lite_impl.h:395-406 | enqueueAll posts the universal task at once iff every FIFO, universal and keyed, is empty |
| SequencerCore.TrimSpec | quantum/util/impl/quantum_sequencer_lite_impl.h:414-421 | trimSequenceKeys keeps exactly the keys whose FIFO is not empty, with their data, and changes nothing else |
| SequencerCore.EnqueueDomain | quantum/util/impl/quantum_sequencer_lite_impl.h:254-264 | an enqueue adds exactly the new task to the task table |
| SequencerCore.CompleteDomain | quantum/util/impl/quantum_sequencer_lite_impl.h:119-153 | a completion removes no task from the task table; it is marked done |
| SequencerCore.RunComplete | quantum/util/impl/quantum_sequencer_lite_impl.h:94-117 | in the seeding scenario, completing task 0 pops it from key 1 and lowers task 1's count by one |
| SequencerCore.SeededAsWritten | quantum/util/impl/quantum_sequencer_lite_impl.h:72-77 | the Lite seeding loop as written, counting every universal task; stated by SequencerCore.LiteSeedingStalls |
| SequencerCore.CreateKeyAsWritten | quantum/util/impl/quantum_sequencer_lite_impl.h:69-78 | Lite key creation as written; stated by SequencerCore.LiteSeedingStalls |
| SequencerCore.AddKeyedAsWritten | quantum/util/impl/quantum_sequencer_lite_impl.h:63-91 | SequencerLite addPendingTask as written, seeding a new key with every universal task; proved in SequencerCore.LiteSeedingStalls |
| SequencerCore.LiteSeedingStalls | quantum/util/impl/quantum_sequencer_lite_impl.h:72-77 | as written, seeding a new key counts the head universal task once too often: after its predecessor completes it heads every FIFO but keeps count 1 and is never posted, with nothing else running |
| SequencerCore.CorrectedSeedingRuns | quantum/util/impl/quantum_sequencer_experimental_impl.h:75-86 | with the head of the universal FIFO not counted, the same run posts the universal task when its predecessor completes |
| SequencerCore.AddKeysAsWritten | quantum/util/impl/quantum_sequencer_lite_impl.h:329-336 | the key loop of enqueueMultiple as written, once per listed key; stated by SequencerCore.RepeatedKeyStalls |
| SequencerCore.RepeatedKeyStalls | quantum/util/impl/quantum_sequencer_lite_impl.h:329-340 | as written, enqueue({1, 1}) on an idle sequencer puts the task in key 1's FIFO twice, with count 1, and never posts it |
| SequencerCore.RepeatedKeyRuns | quantum/util/impl/quantum_sequencer_lite_impl.h:329-340 | with a repeated key skipped, the same call posts the task at once |
| KeyedSequencer.EnqueueGuard | quantum/util/impl/quantum_sequencer_lite_impl.h:244-252 | a draining sequencer refuses with runtime_error, then a queue id below Any with out_of_range; otherwise the enqueue goes ahead |
| KeyedSequencer.DisabledMessage | quantum/util/impl/quantum_sequencer_lite_impl.h:246 | the runtime_error text of a draining sequencer, "SequencerLite is disabled" or "Sequencer is disabled" (quantum/util/impl/quantum_sequencer_experimental_impl.h:270); proved in KeyedSequencer.EnqueueGuard |
| KeyedSequencer.TrimmedByStep | quantum/util/impl/quantum_sequencer_lite_impl.h:414-420 | removing the keys one by one while walking the map gives the trimmed state |
| KeyedSequencer.Sequencer.constructor | quantum/util/impl/quantum_sequencer_lite_impl.h:32-43 | (corrected: new keys are seeded as experimental::Sequencer does) the new sequencer: no keys, no tasks, not draining, invariant holding |
| KeyedSequencer.Sequencer.AddPendingUniversal | quantum/util/impl/quantum_sequencer_lite_impl.h:45-60 | addPendingTask(task): the task joins the universal FIFO, its stats count it as posted and pending, and the result is whether the FIFO was empty |
| KeyedSequencer.Sequencer.CreateKeyQueue | quantum/util/impl/quantum_sequencer_experimental_impl.h:71-87 | a missing key gets a FIFO seeded with the universal tasks, each counted unless it heads the FIFO |
| KeyedSequencer.Sequencer.JoinKeyQueue | quantum/util/impl/quantum_sequencer_lite_impl.h:79-91 | the task joins the key's FIFO; a keyed task records the key and is counted in the key's stats |
| KeyedSequencer.Sequencer.AddPendingKeyed | quantum/util/impl/quantum_sequencer_experimental_impl.h:65-101 | addPendingTask(key, task): create the key if missing, then join it |
| KeyedSequencer.Sequencer.AddPendingKeys | quantum/util/impl/quantum_sequencer_lite_impl.h:329-336 | the key loop of enqueueMultiple, skipping a key already joined; the flag is whether every call returned true |
| KeyedSequencer.Sequencer.RemovePendingFrom | quantum/util/impl/quantum_sequencer_lite_impl.h:94-117 | removePending(entry) on one FIFO, with its result |
| KeyedSequencer.Sequencer.ScheduleTask | quantum/util/impl/quantum_sequencer_lite_impl.h:181-194 | scheduleTask: the pending counts of the task's stats drop by one and the task is posted |
| KeyedSequencer.Sequencer.RemoveAndSchedule | quantum/util/impl/quantum_sequencer_lite_impl.h:130-133 | remove the task from one FIFO and post the released task, if any |
| KeyedSequencer.Sequencer.RemovePending | quantum/util/impl/quantum_sequencer_lite_impl.h:119-153 | removePending(task): a universal task leaves every key FIFO and then the universal FIFO, a keyed task its own key FIFOs; the state is the completion function's |
| KeyedSequencer.Sequencer.RemoveFromAll | quantum/util/impl/quantum_sequencer_lite_impl.h:125-151 | the loop of removePending over the task's FIFOs: the new state is SequencerCore.RemoveAll of the old one, with the completed set, task counter and draining flag kept; SequencerCore.CompleteKeeps proves the invariant survives |
| KeyedSequencer.Sequencer.RunTask | quantum/util/impl/quantum_sequencer_lite_impl.h:161-179 | the posted wrapper returns the function's code, or -1 if it threw; the exception is reported with the task's opaque pointer iff it threw and a callback is set; the task then leaves every FIFO |
| KeyedSequencer.Sequencer.CreateTask | quantum/util/impl/quantum_sequencer_lite_impl.h:254-264 | a fresh task, counted as posted and pending in the task statistics |
| KeyedSequencer.Sequencer.EnqueueSingle | quantum/util/impl/quantum_sequencer_lite_impl.h:233-270 | (corrected: new keys are seeded as experimental::Sequencer does) after the guards, the task joins the key's FIFO and is posted at once iff the key had no pending task; a guard failure changes nothing |
| KeyedSequencer.Sequencer.EnqueueMultiple | quantum/util/impl/quantum_sequencer_lite_impl.h:297-341 | (corrected: new keys are seeded as experimental::Sequencer does) after the guards, the task joins every key's FIFO and is posted at once iff none of the keys had a pending task; a guard failure changes nothing |
| KeyedSequencer.Sequencer.EnqueueAllImpl | quantum/util/impl/quantum_sequencer_lite_impl.h:364-407 | (corrected: new keys are seeded as experimental::Sequencer does) after the guards, the universal task joins every FIFO and is posted at once iff all were empty; a guard failure changes nothing |
| KeyedSequencer.Sequencer.TrimSequenceKeys | quantum/util/impl/quantum_sequencer_lite_impl.h:409-422 | keys with an empty FIFO are erased and the number of keys left is returned |
| KeyedSequencer.Sequencer.GetStatistics | quantum/util/impl/quantum_sequencer_lite_impl.h:424-433 | a key's statistics, or zeroed statistics for an unknown key |
| KeyedSequencer.Sequencer.GetUniversalStatistics | quantum/util/impl/quantum_sequencer_lite_impl.h:435-441 | the universal FIFO's statistics |
| KeyedSequencer.Sequencer.GetTaskStatistics | quantum/util/impl/quantum_sequencer_lite_impl.h:443-448 | the task statistics |
| KeyedSequencer.Sequencer.GetSequenceKeyCount | quantum/util/impl/quantum_sequencer_lite_impl.h:450-456 | the number of keys |
| KeyedSequencer.Sequencer.Drain | quantum/util/impl/quantum_sequencer_lite_impl.h:458-473 | drain enqueues a universal task (refused while already draining), reports whether it ran in time, and leaves the sequencer disabled exactly when the drain is final |
| SharedStates.NewCellValid | quantum/impl/quantum_shared_state_impl.h:28-33 | a new shared state is not satisfied, has no exception, and a wait on it would block |
| SharedStates.NewCell | quantum/impl/quantum_shared_state_impl.h:28-33 | a new single-value shared state; proved in SharedStates.NewCellValid |
| SharedStates.CheckPromiseState | quantum/impl/quantum_shared_state_impl.h:215-225 | checkPromiseState: a stored exception is rethrown first, then a broken or retrieved state throws; stated by SharedStates.ExceptionRethrownFirst, SharedStates.GetThenGetThrows and SharedStates.BrokenPromiseThrows |
| SharedStates.SetCell | quantum/impl/quantum_shared_state_impl.h:35-51 | the set step of the shared state; stated by SharedStates.SetSucceedsIff and SharedStates.SetPreservesValid |
| SharedStates.SetPreservesValid | quantum/impl/quantum_shared_state_impl.h:35-51 | set keeps the shared state in one of its valid states |
| SharedStates.SetSucceedsIff | quantum/impl/quantum_shared_state_impl.h:35-51 | set succeeds iff the promise is not yet satisfied, then stores the value and marks it satisfied; otherwise it throws the current state and changes nothing |
| SharedStates.SecondSetThrows | quantum/impl/quantum_shared_state_impl.h:42-45 | a second set throws PromiseAlreadySatisfied and keeps the first value |
| SharedStates.GetCell | quantum/impl/quantum_shared_state_impl.h:71-79 | the get step; stated by SharedStates.GetThenGetThrows and SharedStates.GetPreservesValid |
| SharedStates.GetThenGetThrows | quantum/impl/quantum_shared_state_impl.h:71-79 | a satisfied state hands out its value once and is then FutureAlreadyRetrieved; a second get throws that state |
| SharedStates.GetPreservesValid | quantum/impl/quantum_shared_state_impl.h:71-79 | get keeps the shared state valid and changed |
| SharedStates.GetRefRepeatable | quantum/impl/quantum_shared_state_impl.h:81-88 | getRef leaves the state alone, agrees with get's result, and succeeds iff no exception is set and the state is satisfied |
| SharedStates.GetRefCell | quantum/impl/quantum_shared_state_impl.h:81-88 | getRef: reads the value or throws, and changes nothing; stated by SharedStates.GetRefRepeatable |
| SharedStates.ExceptionRethrownFirst | quantum/impl/quantum_shared_state_impl.h:171-180 | setException returns -1, keeps the state, and every later get rethrows the stored exception before looking at the state (lines 215-225) |
| SharedStates.SetExceptionCell | quantum/impl/quantum_shared_state_impl.h:171-180 | setException: stores the exception and returns -1; stated by SharedStates.ExceptionRethrownFirst |
| SharedStates.BreakPromiseOnlyFromPending | quantum/impl/quantum_shared_state_impl.h:109-120 | breakPromise moves only an unsatisfied state to BrokenPromise and keeps the value and exception |
| SharedStates.BreakPromiseCell | quantum/impl/quantum_shared_state_impl.h:109-120 | breakPromise: only a pending promise becomes broken; stated by SharedStates.BreakPromiseOnlyFromPending and SharedStates.BrokenPromiseThrows |
| SharedStates.BrokenPromiseThrows | quantum/impl/quantum_shared_state_impl.h:215-225 | after breakPromise a get throws BrokenPromise |
| SharedStates.WaitForTimeoutIff | quantum/impl/quantum_shared_state_impl.h:144-155 | waitFor reports timeout exactly when the promise is still unsatisfied |
| SharedStates.WaitForCell | quantum/impl/quantum_shared_state_impl.h:144-155 | waitFor: judged on the state alone; stated by SharedStates.WaitForTimeoutIff |
| SharedStates.SharedState.constructor | quantum/impl/quantum_shared_state_impl.h:28-33 | the new shared state: not satisfied, no value, no exception |
| SharedStates.SharedState.Set | quantum/impl/quantum_shared_state_impl.h:35-51 | the state after set and its result are the cell function's |
| SharedStates.SharedState.Get | quantum/impl/quantum_shared_state_impl.h:71-79 | the state after get and its result are the cell function's: checkPromiseState, then FutureAlreadyRetrieved and the value moved out |
| SharedStates.SharedState.GetRef | quantum/impl/quantum_shared_state_impl.h:81-88 | getRef's result is the cell function's, and it changes nothing |
| SharedStates.SharedState.BreakPromise | quantum/impl/quantum_shared_state_impl.h:109-120 | the state after breakPromise is the cell function's |
| SharedStates.SharedState.SetException | quantum/impl/quantum_shared_state_impl.h:171-180 | the exception is stored and -1 returned |
| SharedStates.SharedState.WaitFor | quantum/impl/quantum_shared_state_impl.h:144-155 | ready unless the promise is still unsatisfied |
| SharedStates.PushBuffered | quantum/impl/quantum_shared_state_impl.h:352-370 | the buffered push step; stated by SharedStates.PushBufferedSpec and SharedStates.PushBufferedPreservesValid |
| SharedStates.PushBufferedPreservesValid | quantum/impl/quantum_shared_state_impl.h:352-370 | push keeps the buffered state valid |
| SharedStates.PushBufferedSpec | quantum/impl/quantum_shared_state_impl.h:352-370 | push succeeds iff the state is PromiseNotSatisfied or BufferingData, then appends the value to the writer and moves to BufferingData; otherwise it throws the current state and changes nothing |
| SharedStates.PushAfterCloseThrows | quantum/impl/quantum_shared_state_impl.h:462-475 | after closeBuffer the state is BufferClosed and a push throws BufferClosed |
| SharedStates.CloseBufferedSpec | quantum/impl/quantum_shared_state_impl.h:462-475 | closeBuffer returns 0, closes the writer keeping its data, and moves to BufferClosed only from pending or buffering |
| SharedStates.CloseBuffered | quantum/impl/quantum_shared_state_impl.h:462-475 | closeBuffer: closes the writer and moves a pending or buffering state to BufferClosed; stated by SharedStates.CloseBufferedSpec, SharedStates.PushAfterCloseThrows and SharedStates.StreamRoundTrip |
| SharedStates.BreakBufferedSpec | quantum/impl/quantum_shared_state_impl.h:242-254 | breakPromise of a buffered state moves only a pending or buffering state to BrokenPromise |
| SharedStates.BreakBuffered | quantum/impl/quantum_shared_state_impl.h:242-254 | breakPromise of the buffer specialisation; stated by SharedStates.BreakBufferedSpec |
| SharedStates.SetExceptionBuffered | quantum/impl/quantum_shared_state_impl.h:329-338 | setException of the buffer specialisation; stated by SharedStates.SetExceptionBufferedSpec |
| SharedStates.SetExceptionBufferedSpec | quantum/impl/quantum_shared_state_impl.h:329-338 | setException returns -1, keeps the state and the buffers, makes pull possible, and a later pull with nothing left to read rethrows the stored exception (pull at 395-423, checkPromiseState at 480-488) |
| SharedStates.DrainedPullMarksRetrieved | quantum/impl/quantum_shared_state_impl.h:416-421 | a pull from a closed, drained stream reports it closed and marks the future retrieved, and so does every later pull |
| SharedStates.PullBuffered | quantum/impl/quantum_shared_state_impl.h:392-425 | the buffered pull step; stated by SharedStates.PullBufferedPreservesValid, SharedStates.PullReaderThenDrained and SharedStates.DrainedPullMarksRetrieved |
| SharedStates.PullBufferedPreservesValid | quantum/impl/quantum_shared_state_impl.h:392-425 | pull keeps the buffered state valid |
| SharedStates.WaitForBufferedTimeoutIff | quantum/impl/quantum_shared_state_impl.h:290-307 | waitFor of a buffered state times out iff the reader and the writer are empty and the writer is still open |
| SharedStates.WaitForBuffered | quantum/impl/quantum_shared_state_impl.h:290-307 | waitFor of the buffer specialisation: ready with data to read, else judged on the writer; stated by SharedStates.WaitForBufferedTimeoutIff |
| SharedStates.PushAllKeepsBuffering | quantum/impl/quantum_shared_state_impl.h:352-370 | pushing a sequence onto an open stream appends all of it to the writer, in order |
| SharedStates.PullReaderThenDrained | quantum/impl/quantum_shared_state_impl.h:396-401 | when the remaining data sits in the reader of a closed stream, the pulls yield that data in order, then the closed report |
| SharedStates.StreamRoundTrip | quantum/impl/quantum_shared_state_impl.h:352-475 | streaming round trip: push every element, close, and the consumer's pulls yield the elements in order, then the closed report |
| SharedStates.NewBufferedCell | quantum/impl/quantum_shared_state_impl.h:236-240 | a new buffered shared state; proved in SharedStates.NewBufferedCellValid and SharedStates.StreamRoundTrip |
| SharedStates.NewBufferedCellValid | quantum/impl/quantum_shared_state_impl.h:236-240 | a new buffered shared state is pending with an open, empty writer, has no exception, and a pull on it would block |
| SharedStates.BufferedSharedState.constructor | quantum/impl/quantum_shared_state_impl.h:236-240 | the new buffered state: not satisfied, empty open writer and reader, no exception |
| SharedStates.BufferedSharedState.Push | quantum/impl/quantum_shared_state_impl.h:352-370 | the state and result of push are the buffered cell function's |
| SharedStates.BufferedSharedState.Pull | quantum/impl/quantum_shared_state_impl.h:392-425 | the state and result of pull are the buffered cell function's: the reader first, otherwise the writer is moved into the reader |
| SharedStates.BufferedSharedState.CloseBuffer | quantum/impl/quantum_shared_state_impl.h:462-475 | the state and result of closeBuffer are the buffered cell function's |
| SharedStates.BufferedSharedState.BreakPromise | quantum/impl/quantum_shared_state_impl.h:242-254 | the state after breakPromise is the buffered cell function's |
| SharedStates.BufferedSharedState.SetException | quantum/impl/quantum_shared_state_impl.h:329-338 | the exception is stored and -1 returned |
| SharedStates.BufferedSharedState.WaitFor | quantum/impl/quantum_shared_state_impl.h:290-307 | ready with data in the reader, otherwise timeout iff the writer is empty and open |
| TaskStateHandling.IsValidTaskStateOrdered | quantum/impl/quantum_task_state_handler_impl.h:66-89 | isValidTaskStateOrded; stated by TaskStateHandling.ValidIffLifeCycle |
| TaskStateHandling.ValidIffLifeCycle | quantum/impl/quantum_task_state_handler_impl.h:66-89 | isValidTaskStateOrded accepts exactly the six life-cycle moves Initialized→Started, Started/Resumed→Suspended, Suspended→Resumed and Started/Resumed→Stopped |
| TaskStateHandling.NoTransitionIntoStartOrOutOfStopped | quantum/impl/quantum_task_state_handler_impl.h:82-87 | nothing moves into Initialized or None, and nothing leaves Stopped |
| TaskStateHandling.HandleTaskState | quantum/impl/quantum_task_state_handler_impl.h:91-127 | an out-of-order request leaves the state alone and calls nothing; an accepted one sets the state, and the handler is called with the task's id, queue, type and new state iff it is set and the new state is among the handled states |
| TaskStateHandling.ReplaySpec | quantum/impl/quantum_task_state_handler_impl.h:91-127 | over any series of requests, the states taken follow the life cycle, the final state is the last one taken, and the handler is told exactly the taken states that intersect the handled ones |
| TaskStateHandling.StoppedStays | quantum/impl/quantum_task_state_handler_impl.h:79-80 | a stopped task stays stopped whatever is requested next |
| TaskStateHandling.CoroutineLifeCycle | quantum/impl/quantum_task_state_handler_impl.h:66-127 | a coroutine that starts, suspends, resumes and stops reports all four states to a handler of every state |
| TaskIds.NextId | quantum/impl/quantum_task_id_impl.h:132 | the id counter step with wrap to 1; stated by TaskIds.NextIdSpec |
| TaskIds.NextIdSpec | quantum/impl/quantum_task_id_impl.h:132 | from a positive counter the next id is one more, and SSIZE_MAX wraps to 1 instead of overflowing |
| TaskIds.CoroContext | quantum/impl/quantum_task_id_impl.h:35-40 | a coroutine's id is the negated generated id, so it is a coroutine id |
| TaskIds.ThreadContext | quantum/impl/quantum_task_id_impl.h:42-47 | an IO task's id is the generated id, positive, so not a coroutine id |
| TaskIds.ThisThread | quantum/impl/quantum_task_id_impl.h:29-33 | the default id and TaskId(ThisThreadTag): id 0 on the current thread; proved in TaskIds.ThisThreadSpec |
| TaskIds.ThisThreadSpec | quantum/impl/quantum_task_id_impl.h:29-33 | the default id and TaskId(ThisThreadTag) run on the given thread, are not coroutine ids, and id() reads 0 |
| TaskIds.IsCoroutine | quantum/impl/quantum_task_id_impl.h:121-124 | isCoroutine: the id is negative; proved in TaskIds.IsCoroutineSpec, TaskIds.CoroContext and TaskIds.ThreadContext |
| TaskIds.IsCoroutineSpec | quantum/impl/quantum_task_id_impl.h:103-124 | a task id is a coroutine id exactly when id() as a size_t has its top bit set |
| TaskIds.AsSize | quantum/impl/quantum_task_id_impl.h:103-107 | id() converts to size_t: a non-negative id is unchanged, a negative one is taken modulo 2^64 |
| TaskIds.Equal | quantum/impl/quantum_task_id_impl.h:49-58 | operator==; stated by TaskIds.EqualSpec and TaskIds.EqualIsEquivalence |
| TaskIds.EqualSpec | quantum/impl/quantum_task_id_impl.h:49-58 | two ids are equal iff the ids match and, unless both are coroutines, so do the threads |
| TaskIds.EqualIsEquivalence | quantum/impl/quantum_task_id_impl.h:49-58 | operator== is reflexive, symmetric and transitive |
| TaskIds.Trichotomy | quantum/impl/quantum_task_id_impl.h:66-75 | exactly one of a < b, a == b and b < a holds |
| TaskIds.Less | quantum/impl/quantum_task_id_impl.h:66-75 | operator<; stated by TaskIds.LessIsTransitive |
| TaskIds.LessIsTransitive | quantum/impl/quantum_task_id_impl.h:66-75 | operator< is transitive |
| TaskIds.DerivedOperators | quantum/impl/quantum_task_id_impl.h:77-93 | operator> is the converse of <, <= is < or ==, and >= is > or == |
| TaskIds.Greater | quantum/impl/quantum_task_id_impl.h:77-81 | operator>; stated by TaskIds.DerivedOperators |
| TaskIds.LessOrEqual | quantum/impl/quantum_task_id_impl.h:83-87 | operator<=; stated by TaskIds.DerivedOperators |
| TaskIds.GreaterOrEqual | quantum/impl/quantum_task_id_impl.h:89-93 | operator>=; stated by TaskIds.DerivedOperators |
| TaskIds.CoroutinesFirst | quantum/impl/quantum_task_id_impl.h:66-75 | every coroutine id orders before every IO task id, whatever the threads |
| TaskIds.GeneratedCycle | quantum/impl/quantum_task_id_impl.h:127-143 | the k-th generated id after counter g is (g - 1 + k) mod SSIZE_MAX + 1: the generator walks 1, 2, ..., SSIZE_MAX, 1, ... |
| TaskIds.ModShifted | quantum/impl/quantum_task_id_impl.h:127-143 | two positions of the cycle fewer than SSIZE_MAX apart never meet |
| TaskIds.GeneratedDistinct | quantum/impl/quantum_task_id_impl.h:127-143 | ids generated within one cycle of the counter are pairwise distinct |
| TaskIds.Generator.constructor | quantum/impl/quantum_task_id_impl.h:130 | the counter starts at 1 |
| TaskIds.Generator.CompareExchangeWeak | quantum/impl/quantum_task_id_impl.h:133 | compare_exchange_weak succeeds iff the counter equals the expected value and the attempt does not fail spuriously; on success it stores the desired value, otherwise it reports the counter's value |
| TaskIds.Generator.Generate | quantum/impl/quantum_task_id_impl.h:127-143 | whatever the number of spurious failures, generate stores and returns the successor of the counter, which is at least 1 |
| TaskIds.Retry | quantum/impl/quantum_task_id_impl.h:134-140 | after a failed attempt the candidate is 1 on a rollover into the negatives, else the successor of the value seen |
| Tasks.Run | quantum/impl/quantum_task_impl.h:91-119 | the run step; stated by Tasks.RunSpec |
| Tasks.RunSpec | quantum/impl/quantum_task_impl.h:91-119 | run answers AlreadyResumed unless the task is suspended, then NotCallable, Blocked and Sleeping in that order; otherwise the coroutine's code, with the task Terminated iff the coroutine finished; a run never leaves the task Running |
| Tasks.RetCodesReserved | quantum/interface/quantum_itask.h:42-51 | the six reserved return codes are distinct and above RetCode::Max, and Success is below it |
| Tasks.FinishedTaskStaysResumed | quantum/impl/quantum_task_impl.h:91-119 | a terminated task only ever answers AlreadyResumed |
| Tasks.Terminate | quantum/impl/quantum_task_impl.h:81-89 | terminate sets the flag, and the context is to be terminated iff the flag was not already set |
| Tasks.TerminateOnce | quantum/impl/quantum_task_impl.h:81-89 | terminating twice is terminating once, and the second call terminates nothing |
| Tasks.GetFirstTaskSpec | quantum/impl/quantum_task_impl.h:148-152 | getFirstTask walks the prev links back to the nearest First task and passes no other First task |
| Tasks.GetFirstTask | quantum/impl/quantum_task_impl.h:148-152 | getFirstTask; stated by Tasks.GetFirstTaskSpec |
| Tasks.GetErrorHandlerOrFinalTask | quantum/impl/quantum_task_impl.h:154-172 | the search keeps the task table's domain; proved in Tasks.GetErrorHandlerOrFinalTaskSpec |
| Tasks.SearchSuccessors | quantum/impl/quantum_task_impl.h:161-171 | the successor branch keeps the task table's domain; proved in Tasks.SearchSuccessorsSpec |
| Tasks.Release | quantum/impl/quantum_task_impl.h:164-168 | releasing a successor keeps the task table's domain; proved in Tasks.ReleaseSpec |
| Tasks.FirstHandler | quantum/impl/quantum_task_impl.h:157 | the index of the first error handler or final task from a position on, with no handler before it |
| Tasks.IsHandler | quantum/impl/quantum_task_impl.h:157 | the test for an error handler or final task; stated by Tasks.GetErrorHandlerOrFinalTaskSpec and Tasks.SearchNeverReturnsItself |
| Tasks.GetErrorHandlerOrFinalTaskSpec | quantum/impl/quantum_task_impl.h:154-172 | getErrorHandlerOrFinalTask returns the first error handler or final task on the chain, or null when there is none; it terminates every task it skips and cuts the links it walked across; nothing else changes |
| Tasks.SearchSuccessorsSpec | quantum/impl/quantum_task_impl.h:161-171 | the successor branch returns the first handler after the starting task, with the same effects on the skipped tasks |
| Tasks.ReleaseSpec | quantum/impl/quantum_task_impl.h:164-168 | releasing the successor turns the successor's search result into this task's |
| Tasks.FirstHandlerShift | quantum/impl/quantum_task_impl.h:161-171 | the first handler seen from the successor is one position further on the whole chain |
| Tasks.SearchNeverReturnsItself | quantum/impl/quantum_task_impl.h:161-171 | searching from a task's successor never answers that task; the answer is a handler further down the chain, or null |
| TailSequencer.ControlQueueCheck | quantum/util/impl/quantum_sequencer_impl.h:43-46 | the constructor accepts a controller queue id iff 0 <= id < the number of coroutine threads, and throws out_of_range otherwise |
| TailSequencer.EnqueueGuard | quantum/util/impl/quantum_sequencer_impl.h:84-91 | an enqueue is refused with runtime_error while draining, then for a queue id below Any; otherwise it goes ahead |
| TailSequencer.CallPosted | quantum/util/impl/quantum_sequencer_impl.h:499-530 | callPosted returns 0 iff the function returned and -1 iff it threw |
| TailSequencer.InitialInv | quantum/util/impl/quantum_sequencer_impl.h:29-47 | the new sequencer, with no keys and no tails, satisfies the invariant |
| TailSequencer.PendingIffNotTrimmable | quantum/util/impl/quantum_sequencer_impl.h:532-548 | isPendingContext and canTrimContext are complements on every tail |
| TailSequencer.CanTrimContext | quantum/util/impl/quantum_sequencer_impl.h:532-539 | canTrimContext: a missing context, or one whose task is done; no contract of its own, its meaning is stated by TailSequencer.PendingIffNotTrimmable (trimmable exactly when not pending) and TailSequencer.TrimSpec |
| TailSequencer.IsPendingContext | quantum/util/impl/quantum_sequencer_impl.h:541-548 | isPendingContext: a context whose task is still running or waiting; stated by TailSequencer.PendingIffNotTrimmable, and by TailSequencer.ScheduleUniversalSpec and TailSequencer.SingleRunsAfterTail, which make a new task wait for exactly the pending tails |
| TailSequencer.ScheduleSingle | quantum/util/impl/quantum_sequencer_impl.h:363-401 | the single-key scheduler; stated by TailSequencer.ScheduleSingleSpec and TailSequencer.ScheduleSingleKeeps |
| TailSequencer.ScheduleSingleSpec | quantum/util/impl/quantum_sequencer_impl.h:363-401 | the key is created if missing and counted as posted and pending; the task waits for the key's previous tail and the universal tail and becomes the key's tail; nothing else changes |
| TailSequencer.ExistingKeysSpec | quantum/util/impl/quantum_sequencer_impl.h:420-430 | the first loop of the multi-key scheduler counts the task only in keys that already exist and are among its keys |
| TailSequencer.IncHoldersAppend | quantum/util/impl/quantum_sequencer_impl.h:426-427 | counting the task in one more key is one more increment at the end |
| TailSequencer.SetTailsSpec | quantum/util/impl/quantum_sequencer_impl.h:446-450 | the second loop makes the task the tail of every one of its keys, creating a missing key with zero counts and leaving other keys alone |
| TailSequencer.ScheduleMulti | quantum/util/impl/quantum_sequencer_impl.h:403-452 | the corrected multi-key scheduler; stated by TailSequencer.ScheduleMultiSpec and TailSequencer.ScheduleMultiKeeps |
| TailSequencer.ScheduleMultiSpec | quantum/util/impl/quantum_sequencer_impl.h:403-452 | a multi-key task waits for the universal tail and the tails of its existing keys, is counted in those keys only, and becomes the tail of all its keys |
| TailSequencer.PendingTailsSpec | quantum/util/impl/quantum_sequencer_impl.h:469-477 | the walk over the key map collects exactly the tails still pending |
| TailSequencer.ScheduleUniversal | quantum/util/impl/quantum_sequencer_impl.h:454-497 | the universal scheduler; stated by TailSequencer.ScheduleUniversalSpec and TailSequencer.ScheduleUniversalKeeps |
| TailSequencer.ScheduleUniversalSpec | quantum/util/impl/quantum_sequencer_impl.h:454-497 | a universal task waits for the universal tail and every key tail still pending, is counted in the universal statistics, and becomes the universal tail; the keys are unchanged |
| TailSequencer.ScheduleSingleKeeps | quantum/util/impl/quantum_sequencer_impl.h:363-401 | the single-key scheduler keeps the invariant and adds exactly the new task |
| TailSequencer.ScheduleMultiKeeps | quantum/util/impl/quantum_sequencer_impl.h:403-452 | the multi-key scheduler keeps the invariant and adds exactly the new task |
| TailSequencer.ScheduleUniversalKeeps | quantum/util/impl/quantum_sequencer_impl.h:454-497 | the universal scheduler keeps the invariant and adds exactly the new task |
| TailSequencer.Finish | quantum/util/impl/quantum_sequencer_impl.h:268-294 | the end of a task; stated by TailSequencer.FinishKeeps |
| TailSequencer.FinishKeeps | quantum/util/impl/quantum_sequencer_impl.h:268-294 | the end of a runnable task keeps the invariant and marks only that task done |
| TailSequencer.TrimKeeps | quantum/util/impl/quantum_sequencer_impl.h:208-225 | trimming keeps the invariant |
| TailSequencer.TrimSpec | quantum/util/impl/quantum_sequencer_impl.h:208-225 | trimSequenceKeys keeps exactly the keys whose tail is still pending, and changes nothing else |
| TailSequencer.Trim | quantum/util/impl/quantum_sequencer_impl.h:208-225 | trimSequenceKeys: erase every key whose tail can be trimmed; stated by TailSequencer.TrimSpec (exactly the pending keys survive, unchanged) and TailSequencer.TrimKeeps (the invariant survives) |
| TailSequencer.DoneAfterItsChain | quantum/util/impl/quantum_sequencer_impl.h:280-288 | once a task is done, so is every task it waited for, directly or through others |
| TailSequencer.SingleRunsAfterTail | quantum/util/impl/quantum_sequencer_impl.h:389-399 | a task enqueued on a key whose tail is pending cannot run yet and waits for that tail |
| TailSequencer.RunsAfterUniversal | quantum/util/impl/quantum_sequencer_impl.h:316-320 | a keyed task enqueued while a universal task is pending cannot run before it |
| TailSequencer.IncHoldersValue | quantum/util/impl/quantum_sequencer_impl.h:426-427 | counting in a list of keys raises each key's pending count, modulo 2^64, by the number of times it occurs |
| TailSequencer.DecHoldersValue | quantum/util/impl/quantum_sequencer_impl.h:323-326 | decrementing a list of keys lowers each key's pending count, modulo 2^64, by the number of times it occurs |
| TailSequencer.SetTailsKeepsStats | quantum/util/impl/quantum_sequencer_impl.h:446-450 | setting the tails leaves the statistics of existing keys alone |
| TailSequencer.SetTailsNewKey | quantum/util/impl/quantum_sequencer_impl.h:449 | a key created by setting its tail starts from zero counts |
| TailSequencer.MultiPendingRestored | quantum/util/impl/quantum_sequencer_impl.h:403-452 | with the corrected dependents, a multi-key task that is scheduled and then finishes leaves every pending count as it was |
| TailSequencer.SinglePendingRestored | quantum/util/impl/quantum_sequencer_impl.h:363-401 | a single-key task that is scheduled and then finishes leaves every pending count as it was |
| TailSequencer.UniversalPendingRestored | quantum/util/impl/quantum_sequencer_impl.h:454-497 | a universal task that is scheduled and then finishes leaves every pending count as it was |
| TailSequencer.ScheduleMultiAsWritten | quantum/util/impl/quantum_sequencer_impl.h:403-452 | the multi-key scheduler as written, with the universal context among the dependents; stated by TailSequencer.MultiUniversalUnderflow |
| TailSequencer.MultiUniversalUnderflow | quantum/util/impl/quantum_sequencer_impl.h:419 | as written, the universal statistics head the multi-key dependents, so enqueue({1}) on a new sequencer leaves the universal pending count at 2^64 - 1 once the task is done, though no universal task was posted |
| TailSequencer.Sequencer.constructor | quantum/util/impl/quantum_sequencer_impl.h:29-42 | the new sequencer: no keys, no tails, not draining |
| TailSequencer.Sequencer.Create | quantum/util/impl/quantum_sequencer_impl.h:29-47 | the constructor with its check: out_of_range for a bad controller queue id, otherwise a fresh sequencer in the initial state |
| TailSequencer.Sequencer.NewJob | quantum/util/impl/quantum_sequencer_impl.h:390-399 | a fresh task reference, newer than every posted task |
| TailSequencer.Sequencer.ScheduleSingleKey | quantum/util/impl/quantum_sequencer_impl.h:363-401 | the state after singleSequenceKeyTaskScheduler is the single-key scheduler function's |
| TailSequencer.Sequencer.CountExistingKeys | quantum/util/impl/quantum_sequencer_impl.h:420-430 | the first loop counts the task in each existing key and collects their tails |
| TailSequencer.Sequencer.SetKeyTails | quantum/util/impl/quantum_sequencer_impl.h:446-450 | the second loop sets every key's tail |
| TailSequencer.Sequencer.ScheduleMultiKey | quantum/util/impl/quantum_sequencer_impl.h:403-452 | the state after multiSequenceKeyTaskScheduler is the corrected multi-key scheduler function's |
| TailSequencer.Sequencer.ScheduleAll | quantum/util/impl/quantum_sequencer_impl.h:454-497 | given an order that lists every key in the map, as the walk over the map at 469-477 does, the state after universalTaskScheduler is the universal scheduler function's, so `TailSequencer.ScheduleUniversalSpec` applies: the task waits for every pending key tail and the universal tail |
| TailSequencer.Sequencer.EnqueueSingle | quantum/util/impl/quantum_sequencer_impl.h:73-102 | after the guards, the single-key scheduler; a guard failure changes nothing |
| TailSequencer.Sequencer.EnqueueMultiple | quantum/util/impl/quantum_sequencer_impl.h:128-157 | after the guards, the multi-key scheduler; a guard failure changes nothing |
| TailSequencer.Sequencer.EnqueueAll | quantum/util/impl/quantum_sequencer_impl.h:179-206 | after the guards, the universal scheduler over an order that lists every key in the map, so the task waits for every pending key tail (`TailSequencer.ScheduleUniversalSpec`); a guard failure changes nothing |
| TailSequencer.Sequencer.Run | quantum/util/impl/quantum_sequencer_impl.h:268-361 | a runnable task calls its function (0, or -1 if it threw), reports an exception with its opaque pointer iff it threw and a callback is set, then decrements the pending counts it was counted in and is done |
| TailSequencer.Sequencer.DecrementHolders | quantum/util/impl/quantum_sequencer_impl.h:322-326 | the decrement loop after callPosted: the new state is the decrementPendingTaskCount step applied to each holder in turn; TailSequencer.MultiPendingRestored, TailSequencer.SinglePendingRestored and TailSequencer.UniversalPendingRestored prove it returns every pending counter to its value before scheduling |
| TailSequencer.Sequencer.TrimSequenceKeys | quantum/util/impl/quantum_sequencer_impl.h:208-225 | erases every key whose tail can be trimmed and returns the number of keys left |
| TailSequencer.Sequencer.GetStatistics | quantum/util/impl/quantum_sequencer_impl.h:227-241 | a key's counters, or zero counters for an unknown key |
| TailSequencer.Sequencer.GetUniversalStatistics | quantum/util/impl/quantum_sequencer_impl.h:243-248 | the universal counters |
| TailSequencer.Sequencer.GetTaskStatistics | quantum/util/impl/quantum_sequencer_impl.h:250-255 | the task counters |
| TailSequencer.Sequencer.GetSequenceKeyCount | quantum/util/impl/quantum_sequencer_impl.h:257-266 | the number of keys |
| TailSequencer.Sequencer.Drain | quantum/util/impl/quantum_sequencer_impl.h:550-572 | drain enqueues a universal task over an order that lists every key in the map, so it waits for every pending key tail (`TailSequencer.ScheduleUniversalSpec`); it is refused while already draining and leaves the sequencer disabled exactly when the drain is final |
| TailSequencer.TrimmedByStep | quantum/util/impl/quantum_sequencer_impl.h:214-221 | erasing the keys one at a time while walking the map gives the trimmed map |
| TaskQueues.Initial | quantum/impl/quantum_task_queue_impl.h:66-84 | a new queue has both lists empty, both iterators at end(), no blocked state, is empty and idle, round 0, is valid and counted |
| TaskQueues.TryEnqueue | quantum/impl/quantum_task_queue_impl.h:246-260 | tryEnqueue succeeds exactly for a non-null task whose lock was obtained; otherwise nothing changes and nothing is signalled |
| TaskQueues.GrabWorkItem | quantum/impl/quantum_task_queue_impl.h:537-554 | grabbing a work item keeps the queue's iterators valid |
| TaskQueues.SuccessorAfterSuccess | quantum/impl/quantum_task_queue_impl.h:465-473 | skipping an error handler keeps the task table's keys and links, and the successor is a task of the table |
| TaskQueues.DoEnqueue | quantum/impl/quantum_task_queue_impl.h:262-291 | the doEnqueue step on the run and wait lists; no contract of its own, its meaning is stated by TaskQueues.DoEnqueueSpec |
| TaskQueues.DoEnqueueSpec | quantum/impl/quantum_task_queue_impl.h:262-291 | the task goes to the front (high priority) or back of the wait list, the run list and iterators are untouched, posted and element counts go up, and not-empty is signalled exactly on the 0 to 1 transition |
| TaskQueues.Enqueue | quantum/impl/quantum_task_queue_impl.h:234-244 | enqueue: a null task is ignored, any other goes through doEnqueue; stated by TaskQueues.EnqueueShape and TaskQueues.DoEnqueueSpec |
| TaskQueues.EnqueueShape | quantum/impl/quantum_task_queue_impl.h:234-244 | enqueueing a null task changes nothing; any other task lands at the front or back of the wait list, the run list and the completed and error counts are unchanged, and the element count stays exact |
| TaskQueues.DoDequeue | quantum/impl/quantum_task_queue_impl.h:304-333 | the doDequeue step at an iterator; stated by TaskQueues.DoDequeueSpec and TaskQueues.DoDequeueEnd |
| TaskQueues.DoDequeueSpec | quantum/impl/quantum_task_queue_impl.h:304-333 | the task at the position is handed out, terminated and erased; every other iterator keeps its element, a cursor on the erased element moves to the next one, and the element count drops by one |
| TaskQueues.DoDequeueEnd | quantum/impl/quantum_task_queue_impl.h:308-311 | dequeuing end() returns null and changes nothing |
| TaskQueues.AcquireWaiting | quantum/impl/quantum_task_queue_impl.h:593-628 | the splice of the wait list onto the run list; its own contract keeps the queue valid and sets the cursor exactly when the run list is not empty, and TaskQueues.AcquireWaitingSpec states the rest |
| TaskQueues.AcquireWaitingSpec | quantum/impl/quantum_task_queue_impl.h:593-628 | the wait list is spliced in order onto the end of the run list and emptied; the cursor lands on the first spliced task, or on begin() when nothing moved, and the round advances whenever the cursor restarts |
| TaskQueues.GrabWorkItemSpec | quantum/impl/quantum_task_queue_impl.h:537-554 | the count is kept, only waiting tasks move to the end of the run list, the queue is idle exactly when nothing is left to run, and otherwise the item is the task under the cursor |
| TaskQueues.Advance | quantum/impl/quantum_task_queue_impl.h:543 | ++_queueIt on the run list; stated by TaskQueues.GrabWorkItemSpec |
| TaskQueues.BlockedTwiceMarksBlocked | quantum/impl/quantum_task_queue_impl.h:556-570 | the first blocked report remembers the position, a second one at the same position marks the queue blocked and forgets the position |
| TaskQueues.OnBlockedTask | quantum/impl/quantum_task_queue_impl.h:556-570 | onBlockedTask; stated by TaskQueues.BlockedTwiceMarksBlocked and TaskQueues.BlockedAndActiveReports |
| TaskQueues.BlockedAndActiveReports | quantum/impl/quantum_task_queue_impl.h:556-579 | a blocked report never clears the blocked flag and touches no list; an active report always clears it; the item carries the flag and the round |
| TaskQueues.OnActiveTask | quantum/impl/quantum_task_queue_impl.h:572-579 | onActiveTask: progress clears the blocked state; stated by TaskQueues.BlockedAndActiveReports |
| TaskQueues.HandleSuccessSpec | quantum/impl/quantum_task_queue_impl.h:462-480 | the finished task is dequeued, a directly following error handler is terminated and skipped, what follows is enqueued, and a completion is counted |
| TaskQueues.HandleSuccess | quantum/impl/quantum_task_queue_impl.h:462-480 | handleSuccess; stated by TaskQueues.HandleSuccessSpec |
| TaskQueues.EnqueueNextAndDequeueSpec | quantum/impl/quantum_task_queue_impl.h:474-476 | the successor is enqueued and the finished task is terminated and erased, the element count staying exact |
| TaskQueues.EnqueueNextAndDequeue | quantum/impl/quantum_task_queue_impl.h:474-476 | the enqueue of the successor and the dequeue of the finished task that both handlers end with; stated by TaskQueues.EnqueueNextAndDequeueSpec |
| TaskQueueObjects.TaskQueue.EnqueueNextAndDequeue | quantum/impl/quantum_task_queue_impl.h:474-476 | the new queue and task table are the enqueue-then-dequeue step of the old; proved in TaskQueues.EnqueueNextAndDequeueSpec |
| TaskQueues.HandleErrorAsWritten | quantum/impl/quantum_task_queue_impl.h:482-492 | handleError as written, re-enqueueing the failing task when it is itself the handler; stated by TaskQueues.FailingHandlerIsReenqueued |
| TaskQueues.HandleError | quantum/impl/quantum_task_queue_impl.h:482-505 | the corrected handleError step; stated by TaskQueues.HandleErrorSpec |
| TaskQueues.HandleErrorSpec | quantum/impl/quantum_task_queue_impl.h:482-505 | (corrected) the failing task is dequeued and never put back, the first error handler or final task after it is enqueued, and an error is counted |
| TaskQueues.HandleException | quantum/impl/quantum_task_queue_impl.h:507-522 | handleException: the task is dequeued and nothing runs after it; stated by TaskQueues.HandleExceptionSpec |
| TaskQueues.HandleExceptionSpec | quantum/impl/quantum_task_queue_impl.h:507-522 | the failing task is terminated and erased from the run list, the wait list and the completed and error counts are unchanged, and the element count stays exact |
| TaskQueues.FailingHandlerIsReenqueued | quantum/impl/quantum_task_queue_impl.h:482-492 | as written, a failing error handler or final task is put back on the wait list after being terminated, and the element count stays the same |
| TaskQueues.FinishedTaskStaysQueued | quantum/impl/quantum_task_queue_impl.h:175-233 | the re-enqueued task answers AlreadyResumed on every later run, which leaves both lists, the count and the task table unchanged |
| TaskQueues.ProcessTask | quantum/impl/quantum_task_queue_impl.h:175-233 | the processTask step for each return code or exception; stated by TaskQueues.ProcessTaskKeepsCount |
| TaskQueues.ProcessTaskKeepsCount | quantum/impl/quantum_task_queue_impl.h:175-233 | whatever the task returns, or if it throws, processing keeps the iterators valid and the element count exact |
| TaskQueues.SizeSpec | quantum/impl/quantum_task_queue_impl.h:334-345 | size is the number of queued tasks plus the running one, and the queue is empty exactly when it is idle with nothing queued |
| TaskQueues.Size | quantum/impl/quantum_task_queue_impl.h:334-338 | size: the element count plus the running task; stated by TaskQueues.SizeSpec |
| TaskQueueObjects.TaskQueue.Size | quantum/impl/quantum_task_queue_impl.h:334-338 | the queue object's size is the size step of its current value; proved in TaskQueues.SizeSpec |
| TaskQueues.Empty | quantum/impl/quantum_task_queue_impl.h:340-345 | empty: size is 0; stated by TaskQueues.SizeSpec |
| TaskQueueObjects.TaskStore.TerminateTask | quantum/impl/quantum_task_impl.h:81-89 | terminating a shared task object updates only that task's entry, as the terminate step does |
| TaskQueueObjects.TaskQueue.constructor | quantum/impl/quantum_task_queue_impl.h:66-84 | the new queue's state is the initial queue |
| TaskQueueObjects.TaskQueue.DoEnqueue | quantum/impl/quantum_task_queue_impl.h:262-291 | the new state and signal are those of the doEnqueue step |
| TaskQueueObjects.TaskQueue.Enqueue | quantum/impl/quantum_task_queue_impl.h:234-244 | a null task is ignored, any other is enqueued as by the enqueue step |
| TaskQueueObjects.TaskQueue.TryEnqueue | quantum/impl/quantum_task_queue_impl.h:246-260 | the result and new state are those of the tryEnqueue step |
| TaskQueueObjects.TaskQueue.DoDequeue | quantum/impl/quantum_task_queue_impl.h:304-333 | the task, new state and task table are those of the doDequeue step |
| TaskQueueObjects.TaskQueue.AcquireWaiting | quantum/impl/quantum_task_queue_impl.h:593-628 | the new state is that of the acquireWaiting step |
| TaskQueueObjects.TaskQueue.GrabWorkItem | quantum/impl/quantum_task_queue_impl.h:537-554 | the item and new state are those of the grabWorkItem step |
| TaskQueueObjects.TaskQueue.OnBlockedTask | quantum/impl/quantum_task_queue_impl.h:556-570 | the new state and item are those of the onBlockedTask step |
| TaskQueueObjects.TaskQueue.OnActiveTask | quantum/impl/quantum_task_queue_impl.h:572-579 | the new state and item are those of the onActiveTask step |
| TaskQueueObjects.TaskQueue.HandleSuccess | quantum/impl/quantum_task_queue_impl.h:462-480 | the new queue and task table are those of the handleSuccess step |
| TaskQueueObjects.TaskQueue.HandleError | quantum/impl/quantum_task_queue_impl.h:482-505 | the new queue and task table are those of the corrected handleError step |
| TaskQueueObjects.TaskQueue.HandleException | quantum/impl/quantum_task_queue_impl.h:507-522 | the failing task is dequeued and nothing else is done |
| IoQueues.Initial | quantum/impl/quantum_io_queue_impl.h:32-51 | a new queue is empty and idle, with no backoff yet |
| IoQueues.TryEnqueue | quantum/impl/quantum_io_queue_impl.h:199-213 | tryEnqueue succeeds exactly for a non-null task whose lock was obtained; otherwise nothing changes and nothing is signalled |
| IoQueues.Pow2 | quantum/impl/quantum_io_queue_impl.h:312 | the exponential factor std::exp2 of the backoff count is at least 1 |
| IoQueues.DoEnqueue | quantum/impl/quantum_io_queue_impl.h:215-235 | the doEnqueue step; stated by IoQueues.DoEnqueueSpec |
| IoQueues.DoEnqueueSpec | quantum/impl/quantum_io_queue_impl.h:215-235 | a high-priority task goes to the front and any other to the back, the rest keep their order, one post is counted, the element count stays exact, and the not-empty signal fires exactly on the first element of a queue that does not load-balance |
| IoQueues.Enqueue | quantum/impl/quantum_io_queue_impl.h:187-197 | enqueue: a null task is ignored, any other goes through doEnqueue; stated by IoQueues.EnqueueSpec |
| IoQueues.EnqueueSpec | quantum/impl/quantum_io_queue_impl.h:187-197 | a null task changes nothing and signals nothing; any other task is queued exactly once more (the queue grows by one and its multiset gains the task) and the element count stays equal to the queue length |
| IoQueues.DoDequeueSpec | quantum/impl/quantum_io_queue_impl.h:261-273 | the hint says whether the queue was empty; an empty queue gives nothing and is unchanged, otherwise its front task is removed and handed out and the count stays exact |
| IoQueues.DoDequeue | quantum/impl/quantum_io_queue_impl.h:261-273 | doDequeue: the hint and, for a non-empty queue, the front task; stated by IoQueues.DoDequeueSpec, IoQueues.FifoForOrdinaryTasks and IoQueues.HighPriorityGoesNext |
| IoQueues.TryDequeue | quantum/impl/quantum_io_queue_impl.h:249-259 | tryDequeue: nothing without the try-lock, else doDequeue; stated by IoQueues.TryDequeueSpec |
| IoQueues.TryDequeueSpec | quantum/impl/quantum_io_queue_impl.h:249-259 | without the lock nothing changes, nothing is returned and the hint is left alone; with it the hint is set to the queue's emptiness, the front task comes out and the element count stays exact |
| IoQueues.FifoForOrdinaryTasks | quantum/impl/quantum_io_queue_impl.h:215-273 | tasks of normal priority come out in the order they went in |
| IoQueues.HighPriorityGoesNext | quantum/impl/quantum_io_queue_impl.h:219-222 | a high-priority task is the next one dequeued, and the rest of the queue is as before |
| IoQueues.GetBackoffInterval | quantum/impl/quantum_io_queue_impl.h:300-314 | the getBackoffInterval step; stated by IoQueues.BackoffIntervalSpec, IoQueues.BackoffSaturates and IoQueues.BackoffIntervalsGrow |
| IoQueues.BackoffSaturates | quantum/impl/quantum_io_queue_impl.h:303-305 | after k backoff intervals the count is min(n + k, the configured maximum) |
| IoQueues.BackoffIntervalSpec | quantum/impl/quantum_io_queue_impl.h:300-314 | the count goes up by one below the maximum and stays at it; the interval is poll * (1 + n) under the linear policy and poll * 2^n under the exponential one |
| IoQueues.BackoffIntervalsGrow | quantum/impl/quantum_io_queue_impl.h:300-314 | successive backoff intervals never shrink |
| IoQueues.Pow2Grows | quantum/impl/quantum_io_queue_impl.h:312 | 2^n is monotone in n |
| IoQueues.SizeSpec | quantum/impl/quantum_io_queue_impl.h:316-332 | the size is the queued tasks plus the executing one, and the queue is empty exactly when its size is 0 |
| IoQueues.Size | quantum/impl/quantum_io_queue_impl.h:316-325 | size: the queued tasks plus the one executing; stated by IoQueues.SizeSpec |
| IoQueues.Empty | quantum/impl/quantum_io_queue_impl.h:327-332 | empty: nothing queued and nothing executing; stated by IoQueues.SizeSpec |
| IoQueueObjects.IoQueue.constructor | quantum/impl/quantum_io_queue_impl.h:32-51 | the queue keeps its configuration and starts in the initial state |
| IoQueueObjects.IoQueue.DoEnqueue | quantum/impl/quantum_io_queue_impl.h:215-235 | the new state and signal are those of the doEnqueue step |
| IoQueueObjects.IoQueue.Enqueue | quantum/impl/quantum_io_queue_impl.h:187-197 | a null task is ignored, any other is enqueued as by the doEnqueue step |
| IoQueueObjects.IoQueue.TryEnqueue | quantum/impl/quantum_io_queue_impl.h:199-213 | the result and new state are those of the tryEnqueue step |
| IoQueueObjects.IoQueue.DoDequeue | quantum/impl/quantum_io_queue_impl.h:237-273 | the task, hint and new state are those of the doDequeue step |
| IoQueueObjects.IoQueue.GetBackoffInterval | quantum/impl/quantum_io_queue_impl.h:300-314 | the interval and new backoff count are those of the getBackoffInterval step |
| IoQueueObjects.IoQueue.TryDequeue | quantum/impl/quantum_io_queue_impl.h:249-259 | a failed try-lock dequeues nothing and leaves the hint alone; otherwise it is doDequeue |
| IoQueueObjects.IoQueue.Size | quantum/impl/quantum_io_queue_impl.h:316-325 | the object's size is that of its state |
| IoQueueObjects.IoQueue.Empty | quantum/impl/quantum_io_queue_impl.h:327-332 | the object is empty exactly when its state is |
| Utils.BindCoro | quantum/util/impl/quantum_util_impl.h:29-105 | bindCoro and bindCoro2 on each body outcome; stated by Utils.BindSpec |
| Utils.BindIo | quantum/util/impl/quantum_util_impl.h:107-133 | bindIo; stated by Utils.BindSpec |
| Utils.BindIo2 | quantum/util/impl/quantum_util_impl.h:135-161 | bindIo2; stated by Utils.BindSpec |
| Utils.BindSpec | quantum/util/impl/quantum_util_impl.h:29-162 | the coroutine wrappers rethrow the forced unwind; a body that throws, and only such a body, stores its exception and returns (and yields) the Exception code; a returning coroutine body yields its code and returns 0; bindIo returns the body's code and bindIo2 returns 0 |
| Utils.MapSeq | quantum/util/impl/quantum_util_impl.h:244-247 | the function applied to every item in order |
| Utils.StartClosedForm | quantum/util/impl/quantum_util_impl.h:226-250 | batch i starts after i batches of num / threads items plus one item for each of the earlier batches below the remainder |
| Utils.BatchSize | quantum/util/impl/quantum_util_impl.h:226-235 | the size of batch i under the remainder rule; stated by Utils.StartClosedForm, Utils.BatchesCoverAll, Utils.EmptyBatch and Utils.ForEachBatch |
| Utils.BatchesCoverAll | quantum/util/impl/quantum_util_impl.h:226-251 | the batches of all coroutine threads together cover the whole input |
| Utils.StartBounded | quantum/util/impl/quantum_util_impl.h:226-251 | no batch starts beyond the end of the input |
| Utils.EmptyBatch | quantum/util/impl/quantum_util_impl.h:235-239 | a batch is empty exactly when it comes after the last item, and it then starts at the end of the input |
| Utils.ForEachBatch | quantum/util/impl/quantum_util_impl.h:218-253 | there are min(num, threads) batches, each non-empty and of the size the remainder rule gives, and together, in order, they are the function applied to every item |
| Utils.RunBatch | quantum/util/impl/quantum_util_impl.h:240-249 | one batch's result is the function applied to its items in order |
| Utils.IndexOfSpec | quantum/util/impl/quantum_util_impl.h:278-285 | the index holds exactly the keys that were mapped, each with all its values in the order they were met |
| Utils.IndexOf | quantum/util/impl/quantum_util_impl.h:278-285 | the index stage's map in encounter order; stated by Utils.IndexOfSpec and Utils.IndexStage |
| Utils.IndexStage | quantum/util/impl/quantum_util_impl.h:278-285 | the index built by the two nested loops is the index of all mapper outputs taken in order |
| Utils.IndexOutput | quantum/util/impl/quantum_util_impl.h:282-284 | the inner loop appends each pair of one mapper output to its key's list, in order |
| Utils.Reduced | quantum/util/impl/quantum_util_impl.h:287-289 | the reduce stage's forEach gives one result per index entry, the reducer applied to that entry, in iteration order |
| Utils.ReduceOfDistinct | quantum/util/impl/quantum_util_impl.h:291-295 | with distinct keys the output holds exactly the reduced keys, each with its own reduced value |
| Utils.ReduceOf | quantum/util/impl/quantum_util_impl.h:287-298 | the output map built with emplace; stated by Utils.ReduceOfDistinct, Utils.ReduceOfFirstWins and Utils.ReduceStageSpec |
| Utils.ReduceOfFirstWins | quantum/util/impl/quantum_util_impl.h:294 | emplace of a key already present leaves the output unchanged |
| Utils.ReduceStage | quantum/util/impl/quantum_util_impl.h:287-297 | the output is the reduced results emplaced in order into an empty map |
| Utils.ReduceStageSpec | quantum/util/impl/quantum_util_impl.h:255-298 | with a reducer that keeps each key, the output holds exactly the index's keys, each mapped to the reduction of its values |

## Left out

- **Threads and blocking:**
  - Worker loops and thread control are not modelled: `TaskQueue::run`, `isInterrupted`, `sleepOnBlockedQueue`, `IoQueue::run`, `IoQueue::tryDequeueFromShared` and `terminate` on both queues. They are concurrency and OS blocking.
  - Blocking waits are preconditions that the awaited state holds, and timed waits take whether the deadline passed as a parameter. This covers `SharedState::wait`, the condition variable's waits and the sequencers' `drain`. Clocks are never read.
  - Coroutine switching is not modelled: yield, sleep, and Boost coroutine2 inside `bindCoro`. A forced unwind appears only as a body outcome that is rethrown.
- **Locks and atomics:**
  - `SpinLock`, `Mutex` and `ReadWriteMutex`, and the locks that guard the other components, are not modelled. Every operation runs as one atomic step, so interleavings are out of scope. The read/write spinlock is modelled as a state machine on its counter, and its blocking acquisition is a precondition.
  - `compare_exchange_weak` is modelled as a strong compare-and-swap, which never fails spuriously. The exception is the TaskId generator, whose `TaskIds.Generator.CompareExchangeWeak` takes the spurious failure as a parameter.
- **Memory and ownership:**
  - `weak_ptr` expiry is not modelled: tasks and contexts are references into maps and never expire.
  - Iterators are positions into sequences.
  - The pool allocator's copy and move constructors and `std::bad_alloc` from the heap fallback are not modelled.
- **Dispatcher and contexts:**
  - `DispatcherCores.PostAsyncIoRouteSpec`: the load-balanced branch of `postAsyncIo`, a round-robin `tryEnqueue` over the shared IO queues, is not modelled. `Any` always goes to shared IO queue 0, as it does with load balancing off.
  - `DispatcherCores`: queue contents are abstracted as their sizes.
  - `DispatcherCores`: `stats`, `resetStats` and `terminate` are not modelled.
  - `DispatcherCores.MakeCoreSpec`: the value of `std::thread::hardware_concurrency()` is a parameter.
  - `Contexts.PostQueueId`: requires a task whenever the queue id is `Same`. A context posting with `Same` and no task dereferences a null pointer in the source.
- **The two queues:**
  - `TaskQueueObjects.TaskQueue.HandleError`: looks for the handler after the failing task, the corrected handleError; as written it is `TaskQueues.HandleErrorAsWritten` (Findings).
  - `TaskQueues.ProcessTask`: calls the corrected `TaskQueues.HandleError`, so `TaskQueues.ProcessTaskKeepsCount` is about the corrected queue.
  - `IoQueues.GetBackoffInterval`: `std::exp2` works on doubles. Its rounding and the overflow of the product to `size_t` are not modelled: the interval is an unbounded integer.
  - `IoQueues.Size`: models the branch of `size` that counts the list (`_queue.size()`), not the statistics-based branch for the old GCC ABI.
  - `TaskQueues.SizeSpec`: requires the element count to stay below 2^64 (`HasRoom`), so the wrap of `size` at `SIZE_MAX + 1` is not stated.
- **Other components:**
  - `ReadWriteSpinLocks.LockGuard.Unlock`: clears the ownership flag, the corrected unlock; as written it is `ReadWriteSpinLocks.GuardUnlockAsWritten` (Findings).
  - `KeyStatistics.SequenceKeyStatistics.CopyAssign`: copies both counters, the corrected assignment; as written it is `KeyStatistics.AssignAsWritten` (Findings).
  - `PoolManagers.PoolManager.AllocateBlocks`: checks for the full n and allocates n objects on the heap, the corrected allocate; as written see `PoolManagers.FindContiguousAsWritten` and `PoolManagers.AllocateAsWritten` (Findings).
  - `PoolManagers.AllocateAsWritten`: models only the heap fallback as written. Its pool branch keeps the full-width check, because after the narrowed check (`PoolManagers.FindContiguousAsWritten`) the pool branch may take more blocks than the stack holds, which has no defined outcome (`PoolManagers.NarrowingAdmitsOversize`).
  - `DispatcherCores.Sum`: adds queue sizes as unbounded naturals; the source adds them in size_t, whose wrap is not modelled.
  - `PoolManagers.PoolManager.SetBuffer`: requires the size to fit the 16-bit index type. A larger size would be truncated in the source.
  - `PoolManagers.AllocateSpec`: requires `n >= 1`. A request for zero blocks is not modelled.
  - `ReadWriteSpinLocks`: the `int` reader count is unbounded, so its overflow is not modelled.
  - `QueueStatistics`: `print` is output only and is not modelled.
  - `TaskIds`: `hashValue` and `operator<<` are not modelled.
  - `Utils.ForEachBatch`: requires at least one coroutine thread. With zero threads the source divides by zero.
  - `Utils`: `forEachCoro`, the map stage's own forEach and `FutureJoiner` are not modelled. They post one task per item and join the futures, so their result is the function applied to each item in order.
- **Sequencers:**
  - `KeyedSequencer.Sequencer.AddPendingKeys`: skips a key already joined; the source calls addPendingTask once per listed key in both flavours (quantum/util/impl/quantum_sequencer_lite_impl.h:329-336, quantum/util/impl/quantum_sequencer_experimental_impl.h:354-360). The as-written loop is `SequencerCore.AddKeysAsWritten` (Findings).
  - `KeyedSequencer.Sequencer.EnqueueMultiple`: uses the corrected key loop above, so a repeated key is joined once. As written see `SequencerCore.AddKeysAsWritten`.
  - `KeyedSequencer.Sequencer.CreateKeyQueue`: seeds a new key as experimental::Sequencer does, for the SequencerLite object too; SequencerLite's own seeding is `SequencerCore.CreateKeyAsWritten` and `SequencerCore.SeededAsWritten` (Findings). The rows `KeyedSequencer.Sequencer.constructor`, `EnqueueSingle`, `EnqueueMultiple` and `EnqueueAllImpl` cite SequencerLite lines but describe this corrected object.
  - `SequencerCore.EnqueueKeeps`, `SequencerCore.EnqueuePostsIffFree`, `SequencerCore.RunningTasksShareNoQueue` and `SequencerCore.HeadEverywhereIsPosted`: proved for the corrected sequencer; SequencerLite as written breaks `HeadEverywhereIsPosted` (`SequencerCore.LiteSeedingStalls`, `SequencerCore.RepeatedKeyStalls`).
  - `KeyedSequencer.Sequencer.RunTask`: follows SequencerLite's catch-all wrapper. experimental::Sequencer's executePending rethrows the forced unwind without calling removeCompletedAndScheduleNext (quantum/util/impl/quantum_sequencer_experimental_impl.h:190-193); that path is not modelled.
  - `TailSequencer.Sequencer.ScheduleMultiKey`: implements the corrected multi-key scheduler; as written it is `TailSequencer.ScheduleMultiAsWritten` (Findings).
  - `TailSequencer`: the posting of the scheduler task onto the controller queue happens at the enqueue call, and every tail context is modelled as valid.
- **Excluded by design:**
  - Capture and Function type erasure, GenericFuture dispatch and future forwarding are thin wrappers.
  - Coroutine stack allocators, local storage, configuration setters and the JSON schemas are not part of the core.

## Findings

| source | as written | input that shows it | evidently intended | confidence | as-written member | corrected member |
|---|---|---|---|---|---|---|
| quantum/util/impl/quantum_sequencer_lite_impl.h:72-77 | a new key's FIFO is seeded with every pending universal task, and each one's pending-key count goes up, the head of the universal FIFO included | enqueue(key 1), enqueueAll, enqueue(key 2), then task 0 completes: the universal task heads every FIFO but keeps count 1 and is never posted | the head of the universal FIFO is not counted, as in quantum/util/impl/quantum_sequencer_experimental_impl.h:75-86 | not executed | SequencerCore.LiteSeedingStalls | SequencerCore.CorrectedSeedingRuns |
| quantum/util/impl/quantum_sequence_key_statistics_impl.h:47-53 | copy assignment assigns the pending count to itself, so it keeps the target's own count | assigning {posted 3, pending 2} to a fresh object gives {3, 0} | copy both counters, as the copy constructor does | not executed | KeyStatistics.AssignAsWrittenCounterexample | KeyStatistics.AssignAgreesWithCopy |
| quantum/util/impl/quantum_sequencer_lite_impl.h:329-340, quantum/util/impl/quantum_sequencer_experimental_impl.h:354-360 | enqueueMultiple (in both flavours) joins each listed key, a repeated key once per occurrence | enqueue({1, 1}) on an idle sequencer: the task sits in key 1's FIFO twice, behind itself, with count 1, and is never posted | a task joins each distinct key once | not executed | SequencerCore.RepeatedKeyStalls | SequencerCore.RepeatedKeyRuns |
| quantum/impl/quantum_read_write_spinlock_impl.h:165-171, 220-226 | the guard's unlock releases the lock but leaves the guard owning it, so the destructor releases it again | two read guards; the second unlocks and is destroyed: the count is 0 while the first still holds its share, and a writer gets in | unlock clears the ownership flag | not executed | ReadWriteSpinLocks.UnlockThenDestroyReleasesTwice | ReadWriteSpinLocks.UnlockThenDestroyReleasesOnce |
| quantum/util/impl/quantum_sequencer_impl.h:419 | the multi-key scheduler puts the universal context first among the dependents, and each dependent's pending count is decremented when the task finishes (323-326) without having been incremented | enqueue({1}) on a new sequencer: once the task is done the universal pending count is 2^64 - 1 | only the key dependents whose counts were incremented are decremented | not executed | TailSequencer.MultiUniversalUnderflow | TailSequencer.MultiPendingRestored |
| quantum/impl/quantum_condition_variable_impl.h:227-245 | waitFor(mutex, time, predicate) with time <= 0 returns true without evaluating the predicate | waitFor(m, 0, predicate false) answers true | evaluate the predicate once and return its value | not executed | ConditionVariables.ZeroTimeIgnoresPredicate | ConditionVariables.WaitForPredicateTrueMeansSeen |
| quantum/impl/quantum_contiguous_pool_manager_impl.h:140-142 | allocate narrows n to the 16-bit index type before findContiguous, then pops the full n | allocate(65537) with one of one blocks free: findContiguous(1) succeeds and the free index drops 65536 below the stack | check for the full n, so an oversized request goes to the heap | not executed | PoolManagers.NarrowingAdmitsOversize | PoolManagers.AllocateSpec |
| quantum/impl/quantum_contiguous_pool_manager_impl.h:147 | the heap fallback allocates sizeof(value_type) bytes whatever n is | allocate(2) of 8-byte objects with no block free returns 8 bytes for 16 bytes of objects | allocate n * sizeof(value_type) bytes | not executed | PoolManagers.HeapFallbackTooSmall | PoolManagers.AllocateSpec |
| quantum/impl/quantum_task_queue_impl.h:482-492 | handleError enqueues getErrorHandlerOrFinalTask() of the failing task, which is the failing task itself when it is an error handler or a final task (quantum/impl/quantum_task_impl.h:157-158) | a failing error handler is terminated, erased and put back on the wait list; on every later run it answers AlreadyResumed and never leaves the queue | look for the handler after the failing task | not executed | TaskQueues.FailingHandlerIsReenqueued | TaskQueues.HandleErrorSpec |
