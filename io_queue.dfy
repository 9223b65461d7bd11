// IoQueue of quantum_io_queue_impl.h: the FIFO of blocking IO tasks served
// by one IO thread, with priority insertion at the front, and the poll
// interval backoff a load-balancing IO thread uses while the shared queues
// are empty.
module IoQueues {
  import opened Wrappers
  import opened KeyStatistics
  import opened QueueStatistics

  /** Reference to an IO task. */
  type TaskRef = nat

  /** Configuration::BackoffPolicy. */
  datatype BackoffPolicy = Linear | Exponential

  /** The configuration an IoQueue copies at construction. */
  datatype IoConfig = IoConfig(loadBalance: bool, pollIntervalMs: nat, policy: BackoffPolicy, numBackoffs: nat)

  datatype IoState = IoState(queue: seq<TaskRef>, isEmpty: bool, isIdle: bool, backoffNum: nat, stats: Stats)

  /** The constructor: an empty, idle queue with no backoff yet. */
  function Initial(): (s: IoState)
    ensures s.queue == [] && s.isIdle && s.backoffNum == 0
  {
    IoState([], true, true, 0, Reset())
  }

  /**
   * doEnqueue: a high-priority task goes to the front (and is counted as
   * such), any other to the back; posted and element counts go up. The
   * not-empty condition is signalled (second result) only on the 0 -> 1
   * transition and only when the queue does not load-balance.
   */
  function DoEnqueue(s: IoState, cfg: IoConfig, t: TaskRef, highPriority: bool): (IoState, bool)
  {
    var wasEmpty := |s.queue| == 0;
    var stats := if highPriority then Increment(s.stats, HighPriorityCount) else s.stats;
    var s' := s.(queue := if highPriority then [t] + s.queue else s.queue + [t],
                 stats := Increment(Increment(stats, PostedCount), NumElements));
    if !cfg.loadBalance && wasEmpty then (s'.(isEmpty := false), true) else (s', false)
  }

  /** enqueue: a null task is ignored. */
  function Enqueue(s: IoState, cfg: IoConfig, task: Option<(TaskRef, bool)>): (IoState, bool)
  {
    if task.None? then (s, false) else DoEnqueue(s, cfg, task.value.0, task.value.1)
  }

  /** tryEnqueue: false for a null task or when the try-lock fails. */
  function TryEnqueue(s: IoState, cfg: IoConfig, task: Option<(TaskRef, bool)>, locked: bool): (r: (bool, IoState, bool))
    ensures r.0 <==> task.Some? && locked
    ensures !r.0 ==> r.1 == s && !r.2
  {
    if task.None? || !locked then (false, s, false)
    else var (s', signalled) := DoEnqueue(s, cfg, task.value.0, task.value.1); (true, s', signalled)
  }

  /** doDequeue: the hint is set to the queue's emptiness before the pop; a non-empty queue gives up its front task. */
  function DoDequeue(s: IoState): (r: (Option<TaskRef>, IoState, bool))
  {
    var hint := |s.queue| == 0;
    if hint then (None, s, hint)
    else (Some(s.queue[0]), s.(queue := s.queue[1..], stats := DecNumElements(s.stats)), hint)
  }

  /** tryDequeue: a failed try-lock dequeues nothing and leaves the hint as it was (`None` here). */
  function TryDequeue(s: IoState, locked: bool): (Option<TaskRef>, IoState, Option<bool>)
  {
    if !locked then (None, s, None)
    else var (t, s', hint) := DoDequeue(s); (t, s', Some(hint))
  }

  function Pow2(n: nat): (p: nat)
    ensures p >= 1
  {
    if n == 0 then 1 else 2 * Pow2(n - 1)
  }

  /**
   * getBackoffInterval: the backoff count goes up by one until it reaches
   * the configured maximum; the interval is poll * (1 + n) for the linear
   * policy and poll * 2^n otherwise.
   */
  function GetBackoffInterval(s: IoState, cfg: IoConfig): (int, IoState)
  {
    var n := if s.backoffNum < cfg.numBackoffs then s.backoffNum + 1 else s.backoffNum;
    var interval := if cfg.policy == Linear then cfg.pollIntervalMs + cfg.pollIntervalMs * n
                    else cfg.pollIntervalMs * Pow2(n);
    (interval, s.(backoffNum := n))
  }

  /** size: the queued tasks, plus the one executing when the thread is not idle. */
  function Size(s: IoState): Size
    requires |s.queue| < SIZE_MODULUS
  {
    if s.isIdle then |s.queue| else Inc(|s.queue|)
  }

  /** empty: nothing queued and nothing executing. */
  predicate Empty(s: IoState)
  {
    |s.queue| == 0 && s.isIdle
  }

  /** The element count the statistics keep is the queue's length. */
  predicate Counted(s: IoState)
  {
    s.stats.numElements == |s.queue|
  }

  /**
   * doEnqueue puts a high-priority task at the front and any other at the
   * back, keeps the rest in order, counts one post, keeps the element count
   * exact, and signals only on the first element of a queue that does not
   * load-balance.
   */
  lemma DoEnqueueSpec(s: IoState, cfg: IoConfig, t: TaskRef, highPriority: bool)
    requires Counted(s) && |s.queue| + 1 < SIZE_MODULUS && s.stats.postedCount + 1 < SIZE_MODULUS
    ensures var (s', signalled) := DoEnqueue(s, cfg, t, highPriority);
            Counted(s') && |s'.queue| == |s.queue| + 1 &&
            (highPriority ==> s'.queue[0] == t && s'.queue[1..] == s.queue) &&
            (!highPriority ==> s'.queue[|s.queue|] == t && s'.queue[..|s.queue|] == s.queue) &&
            s'.stats.postedCount == s.stats.postedCount + 1 &&
            (signalled <==> !cfg.loadBalance && |s.queue| == 0) && (signalled ==> !s'.isEmpty)
  {
    var stats := if highPriority then Increment(s.stats, HighPriorityCount) else s.stats;
    IncrementSpec(s.stats, HighPriorityCount);
    IncrementSpec(stats, PostedCount);
    IncrementSpec(Increment(stats, PostedCount), NumElements);
    assert (s.queue + [t])[..|s.queue|] == s.queue;
  }

  /**
   * doDequeue reports in the hint whether the queue was empty, and a
   * non-empty queue hands out its oldest task and keeps the count exact.
   */
  lemma DoDequeueSpec(s: IoState)
    requires Counted(s)
    ensures var (t, s', hint) := DoDequeue(s);
            Counted(s') && (hint <==> |s.queue| == 0) && (t.None? <==> hint) &&
            (hint ==> s' == s) &&
            (!hint ==> t == Some(s.queue[0]) && s.queue == [t.value] + s'.queue)
  {
    DecNumElementsSpec(s.stats);
  }

  /** enqueue ignores a null task; any other task is queued once more and the count stays exact. */
  lemma EnqueueSpec(s: IoState, cfg: IoConfig, task: Option<(TaskRef, bool)>)
    requires Counted(s) && |s.queue| + 1 < SIZE_MODULUS && s.stats.postedCount + 1 < SIZE_MODULUS
    ensures var (s', signalled) := Enqueue(s, cfg, task);
            Counted(s') &&
            (task.None? ==> s' == s && !signalled) &&
            (task.Some? ==> |s'.queue| == |s.queue| + 1 && multiset(s'.queue) == multiset(s.queue) + multiset{task.value.0})
  {
    if task.Some? {
      var (t, hp) := task.value;
      DoEnqueueSpec(s, cfg, t, hp);
      var s' := DoEnqueue(s, cfg, t, hp).0;
      if hp {
        assert s'.queue == [t] + s.queue;
      } else {
        assert s'.queue == s.queue + [t];
      }
    }
  }

  /** tryDequeue without the lock leaves everything as it was and gives no hint; with it, it is a doDequeue. */
  lemma TryDequeueSpec(s: IoState, locked: bool)
    requires Counted(s)
    ensures var (t, s', hint) := TryDequeue(s, locked);
            Counted(s') && (hint.Some? <==> locked) &&
            (!locked ==> t.None? && s' == s) &&
            (locked ==> (t.None? <==> |s.queue| == 0) && hint == Some(|s.queue| == 0)) &&
            (t.Some? ==> s.queue == [t.value] + s'.queue)
  {
    DoDequeueSpec(s);
  }

  /** Tasks of equal priority come out in the order they went in. */
  lemma FifoForOrdinaryTasks(s: IoState, cfg: IoConfig, t: TaskRef)
    requires Counted(s) && |s.queue| + 1 < SIZE_MODULUS && s.stats.postedCount + 1 < SIZE_MODULUS && |s.queue| > 0
    ensures var (s1, _) := DoEnqueue(s, cfg, t, false);
            var (first, s2, _) := DoDequeue(s1);
            first == Some(s.queue[0]) && s2.queue == s.queue[1..] + [t]
  {
    DoEnqueueSpec(s, cfg, t, false);
  }

  /** A high-priority task is the very next one out. */
  lemma HighPriorityGoesNext(s: IoState, cfg: IoConfig, t: TaskRef)
    requires Counted(s) && |s.queue| + 1 < SIZE_MODULUS && s.stats.postedCount + 1 < SIZE_MODULUS
    ensures var (s1, _) := DoEnqueue(s, cfg, t, true);
            var (first, s2, _) := DoDequeue(s1);
            first == Some(t) && s2.queue == s.queue
  {
    DoEnqueueSpec(s, cfg, t, true);
  }

  /** The backoff count after k more intervals. */
  function BackoffAfter(s: IoState, cfg: IoConfig, k: nat): IoState
    decreases k
  {
    if k == 0 then s else BackoffAfter(GetBackoffInterval(s, cfg).1, cfg, k - 1)
  }

  function Min(a: int, b: int): int
  {
    if a <= b then a else b
  }

  /** The backoff count saturates: after k intervals it is min(n + k, maximum), starting from n at most the maximum. */
  lemma {:induction false} BackoffSaturates(s: IoState, cfg: IoConfig, k: nat)
    requires s.backoffNum <= cfg.numBackoffs
    ensures BackoffAfter(s, cfg, k).backoffNum == Min(s.backoffNum + k, cfg.numBackoffs)
    decreases k
  {
    if k > 0 {
      BackoffSaturates(GetBackoffInterval(s, cfg).1, cfg, k - 1);
    }
  }

  /** The interval grows with the backoff count: linearly as poll * (1 + n), or as poll * 2^n. */
  lemma BackoffIntervalSpec(s: IoState, cfg: IoConfig)
    ensures var (interval, s') := GetBackoffInterval(s, cfg);
            var n := s'.backoffNum;
            (s.backoffNum < cfg.numBackoffs ==> n == s.backoffNum + 1) &&
            (s.backoffNum >= cfg.numBackoffs ==> n == s.backoffNum) &&
            (cfg.policy == Linear ==> interval == cfg.pollIntervalMs * (1 + n)) &&
            (cfg.policy == Exponential ==> interval == cfg.pollIntervalMs * Pow2(n))
  {
  }

  /** Successive intervals never shrink. */
  lemma BackoffIntervalsGrow(s: IoState, cfg: IoConfig)
    ensures var (i1, s1) := GetBackoffInterval(s, cfg);
            var (i2, _) := GetBackoffInterval(s1, cfg);
            i1 <= i2
  {
    var (i1, s1) := GetBackoffInterval(s, cfg);
    if cfg.policy == Linear {
      assert cfg.pollIntervalMs * s1.backoffNum <= cfg.pollIntervalMs * GetBackoffInterval(s1, cfg).1.backoffNum;
    } else {
      Pow2Grows(s1.backoffNum, GetBackoffInterval(s1, cfg).1.backoffNum);
      assert cfg.pollIntervalMs * Pow2(s1.backoffNum) <= cfg.pollIntervalMs * Pow2(GetBackoffInterval(s1, cfg).1.backoffNum);
    }
  }

  lemma {:induction false} Pow2Grows(a: nat, b: nat)
    requires a <= b
    ensures Pow2(a) <= Pow2(b)
    decreases b
  {
    if a < b {
      Pow2Grows(a, b - 1);
    }
  }

  /** The queue is empty exactly when its size is 0; the size counts the executing task. */
  lemma SizeSpec(s: IoState)
    requires |s.queue| + 1 < SIZE_MODULUS
    ensures Size(s) == |s.queue| + (if s.isIdle then 0 else 1)
    ensures Empty(s) <==> Size(s) == 0
  {
  }

}

/** The IoQueue object: the same state in fields, updated in place. */
module IoQueueObjects {
  import opened Wrappers
  import opened KeyStatistics
  import opened QueueStatistics
  import I = IoQueues

  type TaskRef = I.TaskRef

  class IoQueue {
    const config: I.IoConfig
    var queue: seq<TaskRef>
    var isEmpty: bool
    var isIdle: bool
    var backoffNum: nat
    const stats: QueueStats

    function Value(): I.IoState
      reads this, stats
    {
      I.IoState(queue, isEmpty, isIdle, backoffNum, stats.Value())
    }

    constructor (config: I.IoConfig)
      ensures this.config == config && Value() == I.Initial() && fresh(stats)
    {
      this.config := config;
      queue, isEmpty, isIdle, backoffNum := [], true, true, 0;
      stats := new QueueStats();
    }

    method DoEnqueue(t: TaskRef, highPriority: bool) returns (signalled: bool)
      modifies this, stats
      ensures (Value(), signalled) == I.DoEnqueue(old(Value()), config, t, highPriority)
    {
      var wasEmpty := |queue| == 0;
      if highPriority {
        stats.IncHighPriorityCount();
        queue := [t] + queue;
      } else {
        queue := queue + [t];
      }
      stats.IncPostedCount();
      stats.IncNumElements();
      signalled := false;
      if !config.loadBalance && wasEmpty {
        isEmpty := false;
        signalled := true;
      }
    }

    method Enqueue(task: Option<(TaskRef, bool)>) returns (signalled: bool)
      modifies this, stats
      ensures (Value(), signalled) == I.Enqueue(old(Value()), config, task)
    {
      if task.None? {
        return false;
      }
      signalled := DoEnqueue(task.value.0, task.value.1);
    }

    method TryEnqueue(task: Option<(TaskRef, bool)>, locked: bool) returns (ok: bool, signalled: bool)
      modifies this, stats
      ensures (ok, Value(), signalled) == I.TryEnqueue(old(Value()), config, task, locked)
    {
      if task.None? || !locked {
        return false, false;
      }
      signalled := DoEnqueue(task.value.0, task.value.1);
      ok := true;
    }

    method DoDequeue() returns (task: Option<TaskRef>, hint: bool)
      modifies this, stats
      ensures (task, Value(), hint) == I.DoDequeue(old(Value()))
    {
      hint := |queue| == 0;
      if !hint {
        var t := queue[0];
        queue := queue[1..];
        stats.DecrementNumElements();
        return Some(t), hint;
      }
      return None, hint;
    }

    method GetBackoffInterval() returns (interval: int)
      modifies this
      ensures (interval, Value()) == I.GetBackoffInterval(old(Value()), config)
    {
      if backoffNum < config.numBackoffs {
        backoffNum := backoffNum + 1;
      }
      if config.policy == I.Linear {
        interval := config.pollIntervalMs + config.pollIntervalMs * backoffNum;
      } else {
        interval := config.pollIntervalMs * I.Pow2(backoffNum);
      }
    }

    method TryDequeue(locked: bool) returns (task: Option<TaskRef>, hint: Option<bool>)
      modifies this, stats
      ensures (task, Value(), hint) == I.TryDequeue(old(Value()), locked)
    {
      if !locked {
        return None, None;
      }
      var h;
      task, h := DoDequeue();
      hint := Some(h);
    }

    function Size(): (n: Size)
      requires |queue| < SIZE_MODULUS
      reads this
      ensures n == I.Size(Value())
    {
      if isIdle then |queue| else Inc(|queue|)
    }

    predicate Empty()
      reads this, stats
      ensures Empty() <==> I.Empty(Value())
    {
      |queue| == 0 && isIdle
    }
  }
}
