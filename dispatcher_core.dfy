// DispatcherCore of quantum_dispatcher_core_impl.h: how many coroutine and
// IO queues the dispatcher builds, which coroutine queues `Any` covers,
// where post and postAsyncIo route a task, and the size and emptiness
// queries over all queues.
module DispatcherCores {
  import opened Wrappers
  import opened FutureStates
  import opened KeyStatistics

  /** IQueue::QueueId. */
  const ANY: int := -1
  const SAME: int := -2
  const ALL: int := -3

  /** The largest size_t, the initial "number of tasks" of the shortest-queue search. */
  const SIZE_MAX: int := SIZE_MODULUS - 1

  /** IQueue::QueueType. */
  datatype QueueType = Coro | IO | All

  /** The parts of Configuration the dispatcher core reads. */
  datatype Config = Config(numCoroutineThreads: int, numIoThreads: int,
                           coroQueueIdRangeForAny: (int, int), coroutineSharingForAny: bool)

  /** What the constructor settles: the queue counts, the range `Any` covers, and whether there is a shared `Any` queue. */
  datatype Core = Core(coroCount: nat, ioCount: nat, anyRange: (int, int), sharedCoroAny: bool)

  /** The coroutine thread count: -1 asks for the hardware concurrency, 0 means 1. */
  function CoroCount(configured: int, hardwareConcurrency: nat): int
  {
    if configured == -1 then hardwareConcurrency else if configured == 0 then 1 else configured
  }

  /** The IO thread count: anything up to 0 means 1. */
  function IoCount(configured: int): nat
  {
    if configured <= 0 then 1 else configured
  }

  predicate ValidRange(r: (int, int), n: int)
  {
    0 <= r.0 <= r.1 < n
  }

  /** The configured range is kept only when it lies within [0, n); otherwise all n queues. */
  function AnyRange(n: int, configured: (int, int)): (int, int)
  {
    if configured.0 <= configured.1 && configured.0 >= 0 && configured.1 < n then configured else (0, n - 1)
  }

  /** The constructor: a negative coroutine count makes the vector reservation throw. */
  function MakeCore(config: Config, hardwareConcurrency: nat): Outcome<Core>
  {
    var n := CoroCount(config.numCoroutineThreads, hardwareConcurrency);
    if n < 0 then Throw(LengthError("vector::reserve"))
    else Ok(Core(n, IoCount(config.numIoThreads), AnyRange(n, config.coroQueueIdRangeForAny),
                 config.coroutineSharingForAny))
  }

  /** Coroutine queue `id` is attached to the shared `Any` queue. */
  predicate HasSharedQueue(core: Core, id: int)
  {
    core.sharedCoroAny && core.anyRange.0 <= id <= core.anyRange.1
  }

  /** A dispatcher whose `Any` range lies within its coroutine queues. */
  predicate Valid(core: Core)
  {
    ValidRange(core.anyRange, core.coroCount)
  }

  /**
   * The constructor always builds at least one IO queue, throws exactly for
   * a coroutine count below -1, and keeps the configured `Any` range exactly
   * when it is a valid range of the coroutine queues.
   */
  lemma MakeCoreSpec(config: Config, hardwareConcurrency: nat)
    ensures MakeCore(config, hardwareConcurrency).Throw? <==> config.numCoroutineThreads < -1
    ensures var r := MakeCore(config, hardwareConcurrency);
            r.Ok? ==> var core := r.value;
              core.ioCount >= 1 &&
              (config.numIoThreads > 0 ==> core.ioCount == config.numIoThreads) &&
              (config.numCoroutineThreads == -1 ==> core.coroCount == hardwareConcurrency) &&
              (config.numCoroutineThreads >= 0 ==> core.coroCount >= 1) &&
              (core.coroCount >= 1 ==> Valid(core)) &&
              (ValidRange(config.coroQueueIdRangeForAny, core.coroCount) ==> core.anyRange == config.coroQueueIdRangeForAny) &&
              (!ValidRange(config.coroQueueIdRangeForAny, core.coroCount) ==> core.anyRange == (0, core.coroCount - 1))
  {
  }

  /** The queues attached to the shared `Any` queue are exactly those in the range, and only when sharing is on. */
  lemma SharedQueuesSpec(core: Core, id: int)
    requires Valid(core)
    ensures HasSharedQueue(core, id) ==> 0 <= id < core.coroCount && core.sharedCoroAny
    ensures !core.sharedCoroAny ==> !HasSharedQueue(core, id)
  {
  }

  /**
   * One step of post's search loop from queue i to `last`: the smallest
   * size seen so far and its queue; a size strictly below the best replaces
   * it, and an empty queue ends the search.
   */
  function ShortestFrom(sizes: seq<Size>, i: int, last: int, numTasks: int, index: int): int
    requires 0 <= i && last < |sizes|
    decreases last - i + 1
  {
    if i > last then index
    else
      var (n, idx) := if sizes[i] < numTasks then (sizes[i] as int, i) else (numTasks, index);
      if n == 0 then idx else ShortestFrom(sizes, i + 1, last, n, idx)
  }

  /** The queue post picks for `Any` in [first, last]. */
  function ShortestQueue(sizes: seq<Size>, first: nat, last: int): int
    requires last < |sizes|
  {
    ShortestFrom(sizes, first, last, SIZE_MAX, 0)
  }

  /** r is the lowest-index queue of minimum size in [first, last]. */
  predicate LeastShortest(sizes: seq<Size>, first: int, last: int, r: int)
    requires 0 <= first && last < |sizes|
  {
    first <= r <= last &&
    (forall j :: first <= j <= last ==> sizes[r] <= sizes[j]) &&
    (forall j :: first <= j < r ==> sizes[r] < sizes[j])
  }

  /** Some queue in [first, last] is below the size_t maximum. */
  predicate SomeBelowMax(sizes: seq<Size>, first: int, last: int)
    requires 0 <= first && last < |sizes|
  {
    exists j :: first <= j <= last && sizes[j] < SIZE_MAX
  }

  /** What the search keeps true after scanning [first, i). */
  predicate SearchInvariant(sizes: seq<Size>, first: int, i: int, numTasks: int, index: int)
    requires 0 <= first <= i <= |sizes|
  {
    (numTasks == SIZE_MAX && index == 0 && forall j :: first <= j < i ==> sizes[j] == SIZE_MAX) ||
    (first <= index < i && numTasks == sizes[index] > 0 && sizes[index] < SIZE_MAX &&
     (forall j :: first <= j < i ==> sizes[index] <= sizes[j]) &&
     (forall j :: first <= j < index ==> sizes[index] < sizes[j]))
  }

  lemma {:induction false} ShortestFromSpec(sizes: seq<Size>, first: int, i: int, last: int, numTasks: int, index: int)
    requires 0 <= first <= i <= last + 1 && last < |sizes|
    requires SearchInvariant(sizes, first, i, numTasks, index)
    ensures var r := ShortestFrom(sizes, i, last, numTasks, index);
            (SomeBelowMax(sizes, first, last) ==> LeastShortest(sizes, first, last, r)) &&
            (!SomeBelowMax(sizes, first, last) ==> r == 0)
    decreases last - i + 1
  {
    if i > last {
      if numTasks == SIZE_MAX && index == 0 {
        assert !SomeBelowMax(sizes, first, last);
      } else {
        assert SomeBelowMax(sizes, first, last) by {
          assert first <= index <= last && sizes[index] < SIZE_MAX;
        }
      }
    } else {
      var (n, idx) := if sizes[i] < numTasks then (sizes[i] as int, i) else (numTasks, index);
      if n == 0 {
        assert idx == i || idx == index;
        assert sizes[idx] == 0;
        assert SomeBelowMax(sizes, first, last) by {
          assert first <= idx <= last && sizes[idx] < SIZE_MAX;
        }
      } else {
        assert SearchInvariant(sizes, first, i + 1, n, idx);
        ShortestFromSpec(sizes, first, i + 1, last, n, idx);
      }
    }
  }

  /**
   * post's search picks the lowest-index queue of minimum size in the range
   * (the first empty queue when there is one); only when every queue in the
   * range holds the size_t maximum does it fall back to queue 0.
   */
  lemma ShortestQueueSpec(sizes: seq<Size>, first: nat, last: int)
    requires first <= last < |sizes|
    ensures SomeBelowMax(sizes, first, last) ==> LeastShortest(sizes, first, last, ShortestQueue(sizes, first, last))
    ensures !SomeBelowMax(sizes, first, last) ==> ShortestQueue(sizes, first, last) == 0
  {
    ShortestFromSpec(sizes, first, first, last, SIZE_MAX, 0);
  }

  /** The loop of post that searches the `Any` range for the shortest queue. */
  method SelectShortestQueue(sizes: seq<Size>, first: nat, last: int) returns (index: int)
    requires last < |sizes|
    ensures index == ShortestQueue(sizes, first, last)
  {
    index := 0;
    var numTasks := SIZE_MAX;
    var i := first;
    while i <= last
      invariant first <= i
      invariant ShortestFrom(sizes, i, last, numTasks, index) == ShortestQueue(sizes, first, last)
      decreases last - i + 1
    {
      var queueSize := sizes[i];
      if queueSize < numTasks {
        numTasks := queueSize;
        index := i;
      }
      if numTasks == 0 {
        return;
      }
      i := i + 1;
    }
  }

  /** Where a posted coroutine goes: the shared `Any` queue, or the coroutine queue with that id. */
  datatype Route = SharedAnyQueue | CoroQueue(id: nat)

  /** _coroQueues.at(id). */
  function CoroQueueAt(core: Core, id: int): Outcome<Option<Route>>
  {
    if 0 <= id < core.coroCount then Ok(Some(CoroQueue(id))) else Throw(OutOfRange("vector::_M_range_check"))
  }

  /**
   * post: a null task is ignored; `Any` goes to the shared queue when there
   * is one, else to the shortest queue of the range (whose id overwrites the
   * task's); an explicit id at or beyond the queue count throws.
   */
  function PostRoute(core: Core, queueId: Option<int>, sizes: seq<Size>): Outcome<Option<Route>>
    requires Valid(core) && |sizes| == core.coroCount
  {
    if queueId.None? then Ok(None)
    else if queueId.value == ANY then
      if core.sharedCoroAny then Ok(Some(SharedAnyQueue))
      else CoroQueueAt(core, ShortestQueue(sizes, core.anyRange.0, core.anyRange.1))
    else if queueId.value >= core.coroCount then Throw(RuntimeError("Queue id out of bounds"))
    else CoroQueueAt(core, queueId.value)
  }

  /**
   * A task posted to an explicit queue lands there or throws: out of bounds
   * above, out of range for the negative ids other than `Any`. A task posted
   * to `Any` without a shared queue lands in the range's lowest-index
   * shortest queue.
   */
  lemma PostRouteSpec(core: Core, queueId: Option<int>, sizes: seq<Size>)
    requires Valid(core) && |sizes| == core.coroCount
    ensures var r := PostRoute(core, queueId, sizes);
            (queueId.None? ==> r == Ok(None)) &&
            (r.Ok? && r.value.Some? && r.value.value.CoroQueue? ==> r.value.value.id < core.coroCount) &&
            (queueId.Some? && 0 <= queueId.value < core.coroCount ==> r == Ok(Some(CoroQueue(queueId.value)))) &&
            (queueId.Some? && queueId.value >= core.coroCount ==> r == Throw(RuntimeError("Queue id out of bounds"))) &&
            (queueId.Some? && queueId.value < 0 && queueId.value != ANY ==> r.Throw? && r.failure.OutOfRange?) &&
            (queueId == Some(ANY) && core.sharedCoroAny ==> r == Ok(Some(SharedAnyQueue))) &&
            (queueId == Some(ANY) && !core.sharedCoroAny && SomeBelowMax(sizes, core.anyRange.0, core.anyRange.1) ==>
               r.Ok? && r.value.Some? && r.value.value.CoroQueue? &&
               LeastShortest(sizes, core.anyRange.0, core.anyRange.1, r.value.value.id))
  {
    ShortestQueueSpec(sizes, core.anyRange.0, core.anyRange.1);
  }

  /** Where a posted IO task goes: the first shared IO queue (with every IO queue signalled), or the IO queue with that id. */
  datatype IoRoute = SharedIoQueue | IoQueue(id: nat)

  /**
   * postAsyncIo: a null task is ignored; `Any` goes to the first shared IO
   * queue; an explicit id at or beyond the IO queue count throws.
   */
  function PostAsyncIoRoute(core: Core, queueId: Option<int>): Outcome<Option<IoRoute>>
  {
    if queueId.None? then Ok(None)
    else if queueId.value == ANY then Ok(Some(SharedIoQueue))
    else if queueId.value >= core.ioCount then Throw(RuntimeError("Queue id out of bounds"))
    else if queueId.value < 0 then Throw(OutOfRange("vector::_M_range_check"))
    else Ok(Some(IoQueue(queueId.value)))
  }

  /** An IO task lands in a queue that exists, in the one it names when it names one in range, and throws otherwise. */
  lemma PostAsyncIoRouteSpec(core: Core, queueId: Option<int>)
    ensures var r := PostAsyncIoRoute(core, queueId);
            (r.Ok? && r.value.Some? && r.value.value.IoQueue? ==> r.value.value.id < core.ioCount) &&
            (queueId.Some? && 0 <= queueId.value < core.ioCount ==> r == Ok(Some(IoQueue(queueId.value)))) &&
            (queueId == Some(ANY) ==> r == Ok(Some(SharedIoQueue))) &&
            (r.Throw? <==> queueId.Some? && queueId.value != ANY && !(0 <= queueId.value < core.ioCount))
  {
  }

  /** What a queue reports for size() and empty(). */
  datatype QueueView = QueueView(size: Size, empty: bool)

  /** Every queue the dispatcher owns: the coroutine queues, the shared `Any` queue if any, the IO queues and the shared IO queues. */
  datatype Queues = Queues(coro: seq<QueueView>, sharedCoro: Option<QueueView>, io: seq<QueueView>, sharedIo: seq<QueueView>)

  function Sum(qs: seq<QueueView>): nat
  {
    if qs == [] then 0 else qs[0].size + Sum(qs[1..])
  }

  predicate AllEmpty(qs: seq<QueueView>)
  {
    forall i :: 0 <= i < |qs| ==> qs[i].empty
  }

  /** coroSize. */
  function CoroSize(qs: Queues, queueId: int): Outcome<nat>
  {
    if queueId == ALL then Ok(Sum(qs.coro) + (if qs.sharedCoro.Some? then qs.sharedCoro.value.size as nat else 0))
    else if queueId >= |qs.coro| || queueId < 0 then Throw(RuntimeError("Invalid coroutine queue id"))
    else Ok(qs.coro[queueId].size)
  }

  /** ioSize: `Any` counts only the shared IO queues; an explicit id is bounds-checked by the vector. */
  function IoSize(qs: Queues, queueId: int): Outcome<nat>
  {
    if queueId == ALL then Ok(Sum(qs.io) + Sum(qs.sharedIo))
    else if queueId == ANY then Ok(Sum(qs.sharedIo))
    else if 0 <= queueId < |qs.io| then Ok(qs.io[queueId].size)
    else Throw(OutOfRange("vector::_M_range_check"))
  }

  /** size: the type `All` admits only the id `All`. */
  function QueueSize(qs: Queues, t: QueueType, queueId: int): Outcome<nat>
  {
    if t == All then
      if queueId != ALL then Throw(RuntimeError("Cannot specify queue id"))
      else Ok(CoroSize(qs, ALL).value + IoSize(qs, ALL).value)
    else if t == Coro then CoroSize(qs, queueId)
    else IoSize(qs, queueId)
  }

  /** coroEmpty. */
  function CoroEmpty(qs: Queues, queueId: int): Outcome<bool>
  {
    if queueId == ALL then Ok(AllEmpty(qs.coro) && (qs.sharedCoro.Some? ==> qs.sharedCoro.value.empty))
    else if queueId >= |qs.coro| || queueId < 0 then Throw(RuntimeError("Invalid coroutine queue id"))
    else Ok(qs.coro[queueId].empty)
  }

  /** ioEmpty. */
  function IoEmpty(qs: Queues, queueId: int): Outcome<bool>
  {
    if queueId == ALL then Ok(AllEmpty(qs.sharedIo) && AllEmpty(qs.io))
    else if queueId == ANY then Ok(AllEmpty(qs.sharedIo))
    else if 0 <= queueId < |qs.io| then Ok(qs.io[queueId].empty)
    else Throw(OutOfRange("vector::_M_range_check"))
  }

  /** empty. */
  function QueueEmpty(qs: Queues, t: QueueType, queueId: int): Outcome<bool>
  {
    if t == All then
      if queueId != ALL then Throw(RuntimeError("Cannot specify queue id"))
      else Ok(CoroEmpty(qs, ALL).value && IoEmpty(qs, ALL).value)
    else if t == Coro then CoroEmpty(qs, queueId)
    else IoEmpty(qs, queueId)
  }

  /** Every queue reports empty exactly when it reports size 0. */
  predicate Consistent(qs: Queues)
  {
    (forall i :: 0 <= i < |qs.coro| ==> (qs.coro[i].empty <==> qs.coro[i].size == 0)) &&
    (qs.sharedCoro.Some? ==> (qs.sharedCoro.value.empty <==> qs.sharedCoro.value.size == 0)) &&
    (forall i :: 0 <= i < |qs.io| ==> (qs.io[i].empty <==> qs.io[i].size == 0)) &&
    (forall i :: 0 <= i < |qs.sharedIo| ==> (qs.sharedIo[i].empty <==> qs.sharedIo[i].size == 0))
  }

  lemma {:induction false} SumZeroIffAllEmpty(qs: seq<QueueView>)
    requires forall i :: 0 <= i < |qs| ==> (qs[i].empty <==> qs[i].size == 0)
    ensures Sum(qs) == 0 <==> AllEmpty(qs)
  {
    if qs != [] {
      SumZeroIffAllEmpty(qs[1..]);
      assert forall i :: 1 <= i < |qs| ==> qs[i] == qs[1..][i - 1];
    }
  }

  /**
   * The queries fail alike: size and empty throw for the same type and id,
   * `All` with any other id is refused, a coroutine id out of range is
   * refused; and when every queue's emptiness agrees with its size, empty
   * holds exactly when the size is 0.
   */
  lemma SizeAndEmptyAgree(qs: Queues, t: QueueType, queueId: int)
    requires Consistent(qs)
    ensures QueueSize(qs, t, queueId).Throw? <==> QueueEmpty(qs, t, queueId).Throw?
    ensures t == All && queueId != ALL ==> QueueSize(qs, t, queueId) == Throw(RuntimeError("Cannot specify queue id"))
    ensures t == Coro && queueId != ALL && !(0 <= queueId < |qs.coro|) ==>
              QueueSize(qs, t, queueId) == Throw(RuntimeError("Invalid coroutine queue id"))
    ensures QueueSize(qs, t, queueId).Ok? ==> (QueueEmpty(qs, t, queueId).value <==> QueueSize(qs, t, queueId).value == 0)
  {
    SumZeroIffAllEmpty(qs.coro);
    SumZeroIffAllEmpty(qs.io);
    SumZeroIffAllEmpty(qs.sharedIo);
  }

  /** The task's mutable queue id. */
  class PostedTask {
    var queueId: int

    constructor (queueId: int)
      ensures this.queueId == queueId
    {
      this.queueId := queueId;
    }
  }

  /** The dispatcher core after construction; post consults the coroutine queues' sizes and may rewrite the task's queue id. */
  class DispatcherCore {
    const core: Core

    constructor (config: Config, hardwareConcurrency: nat)
      requires MakeCore(config, hardwareConcurrency).Ok?
      ensures core == MakeCore(config, hardwareConcurrency).value
    {
      core := MakeCore(config, hardwareConcurrency).value;
    }

    method Post(task: PostedTask?, sizes: seq<Size>) returns (r: Outcome<Option<Route>>)
      requires Valid(core) && |sizes| == core.coroCount
      modifies task
      ensures r == PostRoute(core, if task == null then None else Some(old(task.queueId)), sizes)
      ensures task != null && r.Ok? && r.value.Some? && r.value.value.CoroQueue? ==> task.queueId == r.value.value.id
      ensures task != null && !(old(task.queueId) == ANY && !core.sharedCoroAny) ==> task.queueId == old(task.queueId)
    {
      if task == null {
        return Ok(None);
      }
      if task.queueId == ANY {
        if core.sharedCoroAny {
          return Ok(Some(SharedAnyQueue));
        }
        var index := SelectShortestQueue(sizes, core.anyRange.0, core.anyRange.1);
        task.queueId := index;
      } else if task.queueId >= core.coroCount {
        return Throw(RuntimeError("Queue id out of bounds"));
      }
      r := CoroQueueAt(core, task.queueId);
    }
  }
}
