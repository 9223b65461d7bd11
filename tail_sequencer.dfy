// Sequencer (quantum_sequencer_impl.h): every sequence key remembers the
// context of the last task posted for it, its "tail".  A new task on a key
// waits for that tail (and for the universal tail) and becomes the new tail;
// a universal task waits for every key's tail that is still pending.
//
// A posted task is a `Job` identified by a `JobRef`; its context is done once
// the job is in `finished`.  A context handed out by the sequencer is never
// consumed, so `valid()` holds for every tail.  The scheduler functions run on
// the controller queue; the model runs them at the enqueue call.
module TailSequencer {
  import opened Wrappers
  import opened FutureStates
  import opened KeyStatistics

  type JobRef = nat

  /** IQueue::QueueId::Any. */
  const ANY: int := -1

  /** Whose statistics a task is counted in. */
  datatype Holder<K> = KeyHolder(key: K) | UniversalHolder

  /** SequenceKeyData: the tail context (null when None) and the key's statistics. */
  datatype KeyData = KeyData(tail: Option<JobRef>, stats: Counters)

  /** A posted task: the contexts it waits for, the statistics it decrements when done, and where it runs. */
  datatype Job<K> = Job(waitsOn: set<JobRef>, counted: seq<Holder<K>>, queueId: int, isHighPriority: bool, opaqueData: nat)

  datatype State<K> = State(contexts: map<K, KeyData>, universal: KeyData, jobs: map<JobRef, Job<K>>,
                            finished: set<JobRef>, taskStats: Counters)

  function InitialState<K>(): State<K>
  {
    State(map[], KeyData(None, NewCounters()), map[], {}, NewCounters())
  }

  function EmptyKeyData(): KeyData
  {
    KeyData(None, NewCounters())
  }

  /** The wait a dependent contributes: nothing for a null context. */
  function TailSet(tail: Option<JobRef>): set<JobRef>
  {
    if tail.Some? then {tail.value} else {}
  }

  function Counted(c: Counters): Counters
  {
    IncrementPending(IncrementPosted(c))
  }

  // ------------------------------------------------------------------
  // The constructor and the enqueue guards
  // ------------------------------------------------------------------

  /** The constructor's check of the controller queue id against the number of coroutine threads. */
  function ControlQueueCheck(controllerQueueId: int, numCoroutineThreads: int): (r: Option<Failure>)
    ensures r.None? <==> 0 <= controllerQueueId < numCoroutineThreads
    ensures r.Some? ==> r.value.OutOfRange?
  {
    if controllerQueueId <= ANY || controllerQueueId >= numCoroutineThreads then
      Some(OutOfRange("Allowed range is 0 <= controllerQueueId < _dispatcher.getNumCoroutineThreads()"))
    else None
  }

  /** The checks of every enqueue: a draining sequencer, then a queue id below Any; both throw std::runtime_error. */
  function EnqueueGuard(draining: bool, queueId: int): (r: Option<Failure>)
    ensures r.None? <==> !draining && queueId >= ANY
    ensures r.Some? ==> r.value.RuntimeError?
    ensures draining ==> r == Some(RuntimeError("Sequencer is disabled"))
  {
    if draining then Some(RuntimeError("Sequencer is disabled"))
    else if queueId < ANY then Some(RuntimeError("Invalid IO queue id"))
    else None
  }

  // ------------------------------------------------------------------
  // Contexts and statistics
  // ------------------------------------------------------------------

  /** canTrimContext: a null context, or one whose task is done. */
  predicate CanTrimContext<K>(s: State<K>, tail: Option<JobRef>)
  {
    tail.None? || tail.value in s.finished
  }

  /** isPendingContext: a context whose task is still running or waiting. */
  predicate IsPendingContext<K>(s: State<K>, tail: Option<JobRef>)
  {
    tail.Some? && tail.value !in s.finished
  }

  function Stats<K>(s: State<K>, h: Holder<K>): Counters
  {
    match h
    case UniversalHolder => s.universal.stats
    case KeyHolder(k) => if k in s.contexts then s.contexts[k].stats else NewCounters()
  }

  /**
   * The source updates the statistics object the task holds even after its
   * key was erased; the model drops the update then. A key a waiting task
   * counted itself in has that task, or a later task waiting on it, as a
   * pending tail, so trimming does not erase it before the task ends.
   */
  function WithStats<K>(s: State<K>, h: Holder<K>, c: Counters): State<K>
  {
    match h
    case UniversalHolder => s.(universal := s.universal.(stats := c))
    case KeyHolder(k) => if k in s.contexts then s.(contexts := s.contexts[k := s.contexts[k].(stats := c)]) else s
  }

  /** decrementPendingTaskCount on the statistics of each holder in turn. */
  function DecHolders<K>(s: State<K>, hs: seq<Holder<K>>): State<K>
    decreases |hs|
  {
    if |hs| == 0 then s else DecHolders(WithStats(s, hs[0], DecrementPending(Stats(s, hs[0]))), hs[1..])
  }

  /** incrementPostedTaskCount and incrementPendingTaskCount on each holder in turn. */
  function IncHolders<K>(s: State<K>, hs: seq<Holder<K>>): State<K>
    decreases |hs|
  {
    if |hs| == 0 then s else IncHolders(WithStats(s, hs[0], Counted(Stats(s, hs[0]))), hs[1..])
  }

  /** How often `h` occurs in `hs`. */
  function Occurrences<K(==)>(hs: seq<Holder<K>>, h: Holder<K>): nat
    decreases |hs|
  {
    if |hs| == 0 then 0 else (if hs[0] == h then 1 else 0) + Occurrences(hs[1..], h)
  }

  // ------------------------------------------------------------------
  // The schedulers and the end of a task
  // ------------------------------------------------------------------

  /** singleSequenceKeyTaskScheduler: create a missing key, count the task, and make it the key's tail; it waits for the
      previous tail and the universal tail. */
  function ScheduleSingle<K>(s: State<K>, j: JobRef, k: K, queueId: int, isHighPriority: bool, opaqueData: nat): State<K>
  {
    var kd := if k in s.contexts then s.contexts[k] else EmptyKeyData();
    var job := Job(TailSet(kd.tail) + TailSet(s.universal.tail), [KeyHolder(k)], queueId, isHighPriority, opaqueData);
    s.(contexts := s.contexts[k := KeyData(Some(j), Counted(kd.stats))],
       jobs := s.jobs[j := job],
       taskStats := Counted(s.taskStats))
  }

  /** The keys of `ks` that already exist, in order and with repeats: the first loop of multiSequenceKeyTaskScheduler
      counts the task in each of them. */
  function ExistingKeys<K>(s: State<K>, ks: seq<K>): seq<Holder<K>>
    decreases |ks|
  {
    if |ks| == 0 then []
    else ExistingKeys(s, ks[..|ks| - 1]) + (if ks[|ks| - 1] in s.contexts then [KeyHolder(ks[|ks| - 1])] else [])
  }

  /** The tails the existing keys of `ks` contribute to the wait. */
  function ExistingTails<K>(s: State<K>, ks: seq<K>): set<JobRef>
  {
    set k | k in ks && k in s.contexts && s.contexts[k].tail.Some? :: s.contexts[k].tail.value
  }

  /** The second loop: `_contexts[key]._context = newCtx`, creating a missing key. */
  function SetTails<K>(s: State<K>, ks: seq<K>, j: JobRef): State<K>
    decreases |ks|
  {
    if |ks| == 0 then s
    else
      var kd := if ks[0] in s.contexts then s.contexts[ks[0]] else EmptyKeyData();
      SetTails(s.(contexts := s.contexts[ks[0] := kd.(tail := Some(j))]), ks[1..], j)
  }

  /** multiSequenceKeyTaskScheduler, with the task counted only where it was counted at scheduling. */
  function ScheduleMulti<K>(s: State<K>, j: JobRef, ks: seq<K>, queueId: int, isHighPriority: bool, opaqueData: nat): State<K>
  {
    var c := ExistingKeys(s, ks);
    var s1 := IncHolders(s, c);
    var job := Job(TailSet(s.universal.tail) + ExistingTails(s, ks), c, queueId, isHighPriority, opaqueData);
    SetTails(s1.(jobs := s1.jobs[j := job], taskStats := Counted(s1.taskStats)), ks, j)
  }

  /** The tails, in `order`, that are still pending. */
  function PendingTails<K>(s: State<K>, order: seq<K>): set<JobRef>
    decreases |order|
  {
    if |order| == 0 then {}
    else
      var here := if order[0] in s.contexts && IsPendingContext(s, s.contexts[order[0]].tail)
                  then {s.contexts[order[0]].tail.value} else {};
      here + PendingTails(s, order[1..])
  }

  /** universalTaskScheduler: wait for every pending key tail and the universal tail; count in the universal statistics
      only; become the universal tail. */
  function ScheduleUniversal<K>(s: State<K>, j: JobRef, order: seq<K>, queueId: int, isHighPriority: bool, opaqueData: nat): State<K>
  {
    var job := Job(PendingTails(s, order) + TailSet(s.universal.tail), [UniversalHolder], queueId, isHighPriority, opaqueData);
    s.(universal := KeyData(Some(j), Counted(s.universal.stats)),
       jobs := s.jobs[j := job],
       taskStats := Counted(s.taskStats))
  }

  /** The end of waitFor*Dependent(s): the context is done, then the pending counts it was counted in drop. */
  function Finish<K>(s: State<K>, j: JobRef): State<K>
  {
    if j !in s.jobs then s
    else
      var s1 := DecHolders(s, s.jobs[j].counted);
      s1.(finished := s1.finished + {j}, taskStats := DecrementPending(s1.taskStats))
  }

  /** callPosted: 0 once the function returned, -1 when it threw. */
  function CallPosted(body: Outcome<()>): (rc: int)
    ensures rc == 0 <==> body.Ok?
    ensures rc == -1 <==> body.Throw?
  {
    if body.Ok? then 0 else -1
  }

  /** trimSequenceKeys: erase every key whose tail can be trimmed. */
  function Trim<K>(s: State<K>): State<K>
  {
    s.(contexts := map k | k in s.contexts && !CanTrimContext(s, s.contexts[k].tail) :: s.contexts[k])
  }

  // ------------------------------------------------------------------
  // The invariant: tails name posted tasks, a task waits only for older tasks, and a task is done only after the
  // tasks it waited for
  // ------------------------------------------------------------------

  ghost predicate Inv<K>(s: State<K>)
  {
    (forall k | k in s.contexts && s.contexts[k].tail.Some? :: s.contexts[k].tail.value in s.jobs) &&
    (s.universal.tail.Some? ==> s.universal.tail.value in s.jobs) &&
    (forall j, i | j in s.jobs && i in s.jobs[j].waitsOn :: i in s.jobs && i < j) &&
    (forall j | j in s.finished :: j in s.jobs && s.jobs[j].waitsOn <= s.finished)
  }

  /** `j` is newer than every posted task. */
  predicate Newest<K>(s: State<K>, j: JobRef)
  {
    forall i | i in s.jobs :: i < j
  }

  /** A task may run once every context it waits for is done. */
  predicate Runnable<K>(s: State<K>, j: JobRef)
  {
    j in s.jobs && j !in s.finished && s.jobs[j].waitsOn <= s.finished
  }

  lemma InitialInv<K>()
    ensures Inv(InitialState<K>())
  {
  }

  /** The two checks see the same tail from opposite sides. */
  lemma PendingIffNotTrimmable<K>(s: State<K>, tail: Option<JobRef>)
    ensures IsPendingContext(s, tail) <==> !CanTrimContext(s, tail)
  {
  }

  // ------------------------------------------------------------------
  // What the schedulers do
  // ------------------------------------------------------------------

  lemma ScheduleSingleSpec<K>(s: State<K>, j: JobRef, k: K, queueId: int, isHighPriority: bool, opaqueData: nat)
    ensures var r := ScheduleSingle(s, j, k, queueId, isHighPriority, opaqueData);
      var before := if k in s.contexts then s.contexts[k] else EmptyKeyData();
      r.contexts.Keys == s.contexts.Keys + {k} && r.contexts[k].tail == Some(j) &&
      r.contexts[k].stats.posted == Inc(before.stats.posted) && r.contexts[k].stats.pending == Inc(before.stats.pending) &&
      (forall k' | k' in s.contexts && k' != k :: r.contexts[k'] == s.contexts[k']) &&
      r.universal == s.universal && r.finished == s.finished &&
      j in r.jobs && r.jobs[j].waitsOn == TailSet(before.tail) + TailSet(s.universal.tail) &&
      r.taskStats.posted == Inc(s.taskStats.posted) && r.taskStats.pending == Inc(s.taskStats.pending)
  {
  }

  lemma {:induction false} ExistingKeysSpec<K>(s: State<K>, ks: seq<K>)
    ensures forall h | h in ExistingKeys(s, ks) :: h.KeyHolder? && h.key in ks && h.key in s.contexts
    decreases |ks|
  {
    if |ks| > 0 {
      ExistingKeysSpec(s, ks[..|ks| - 1]);
      assert forall k | k in ks[..|ks| - 1] :: k in ks;
    }
  }

  lemma {:induction false} IncHoldersFrame<K>(s: State<K>, hs: seq<Holder<K>>, ks: seq<K>)
    requires forall x | x in hs :: x.KeyHolder? ==> x.key in ks
    ensures var r := IncHolders(s, hs);
      r.contexts.Keys == s.contexts.Keys && r.universal.tail == s.universal.tail && r.jobs == s.jobs &&
      r.finished == s.finished && r.taskStats == s.taskStats &&
      (forall k | k in s.contexts :: r.contexts[k].tail == s.contexts[k].tail) &&
      (forall k | k in s.contexts && k !in ks :: r.contexts[k] == s.contexts[k]) &&
      (UniversalHolder !in hs ==> r.universal == s.universal)
    decreases |hs|
  {
    if |hs| > 0 {
      assert forall x | x in hs[1..] :: x in hs;
      IncHoldersFrame(WithStats(s, hs[0], Counted(Stats(s, hs[0]))), hs[1..], ks);
    }
  }

  /** Counting in one more holder is one more step at the end. */
  /** One round of the first loop of multiSequenceKeyTaskScheduler: a key that already has a context is counted and
      its tail joins the wait; any other key changes nothing. */
  lemma CountStep<K>(s0: State<K>, ks: seq<K>, i: nat, counted: seq<Holder<K>>, waits: set<JobRef>, cur: State<K>)
    requires i < |ks|
    requires counted == ExistingKeys(s0, ks[..i]) && waits == ExistingTails(s0, ks[..i]) && cur == IncHolders(s0, counted)
    ensures ks[i] in cur.contexts <==> ks[i] in s0.contexts
    ensures ks[i] in cur.contexts ==>
      var kd := cur.contexts[ks[i]];
      counted + [KeyHolder(ks[i])] == ExistingKeys(s0, ks[..i + 1]) &&
      waits + TailSet(kd.tail) == ExistingTails(s0, ks[..i + 1]) &&
      cur.(contexts := cur.contexts[ks[i] := kd.(stats := Counted(kd.stats))]) == IncHolders(s0, counted + [KeyHolder(ks[i])])
    ensures ks[i] !in cur.contexts ==> counted == ExistingKeys(s0, ks[..i + 1]) && waits == ExistingTails(s0, ks[..i + 1])
  {
    var k := ks[i];
    assert ks[..i + 1][..i] == ks[..i] && ks[..i + 1][i] == k;
    ExistingKeysSpec(s0, ks[..i]);
    IncHoldersFrame(s0, counted, ks[..i]);
    assert forall k' :: k' in ks[..i + 1] <==> k' in ks[..i] || k' == k;
    if k in cur.contexts {
      IncHoldersAppend(s0, counted, KeyHolder(k));
      assert cur.contexts[k].tail == s0.contexts[k].tail;
    }
  }

  lemma {:induction false} IncHoldersAppend<K>(s: State<K>, hs: seq<Holder<K>>, x: Holder<K>)
    ensures var r := IncHolders(s, hs);
      IncHolders(s, hs + [x]) == WithStats(r, x, Counted(Stats(r, x)))
    decreases |hs|
  {
    if |hs| == 0 {
      assert [x][1..] == [];
    } else {
      assert (hs + [x])[1..] == hs[1..] + [x];
      IncHoldersAppend(WithStats(s, hs[0], Counted(Stats(s, hs[0]))), hs[1..], x);
    }
  }

  lemma {:induction false} SetTailsSpec<K>(s: State<K>, ks: seq<K>, j: JobRef)
    ensures var r := SetTails(s, ks, j);
      r.contexts.Keys == s.contexts.Keys + (set k | k in ks) &&
      (forall k | k in ks :: r.contexts[k].tail == Some(j)) &&
      (forall k | k in ks && k in s.contexts :: r.contexts[k].stats == s.contexts[k].stats) &&
      (forall k | k in ks && k !in s.contexts :: r.contexts[k].stats == NewCounters()) &&
      (forall k | k in s.contexts && k !in ks :: r.contexts[k] == s.contexts[k]) &&
      r.universal == s.universal && r.jobs == s.jobs && r.finished == s.finished && r.taskStats == s.taskStats
    decreases |ks|
  {
    if |ks| > 0 {
      var kd := if ks[0] in s.contexts then s.contexts[ks[0]] else EmptyKeyData();
      var s1 := s.(contexts := s.contexts[ks[0] := kd.(tail := Some(j))]);
      SetTailsSpec(s1, ks[1..], j);
      assert forall k | k in ks :: k == ks[0] || k in ks[1..];
    }
  }

  /** A multi-key task waits for the universal tail and the tails of the keys that already exist, is counted in those keys,
      and becomes the tail of all its keys (a missing key is created with zero counts). */
  lemma ScheduleMultiSpec<K>(s: State<K>, j: JobRef, ks: seq<K>, queueId: int, isHighPriority: bool, opaqueData: nat)
    ensures var r := ScheduleMulti(s, j, ks, queueId, isHighPriority, opaqueData);
      r.contexts.Keys == s.contexts.Keys + (set k | k in ks) &&
      (forall k | k in ks :: r.contexts[k].tail == Some(j)) &&
      (forall k | k in ks && k !in s.contexts :: r.contexts[k].stats == NewCounters()) &&
      (forall k | k in s.contexts && k !in ks :: r.contexts[k] == s.contexts[k]) &&
      r.universal == s.universal && r.finished == s.finished &&
      j in r.jobs &&
      r.jobs[j].waitsOn == TailSet(s.universal.tail) +
        (set k | k in ks && k in s.contexts && s.contexts[k].tail.Some? :: s.contexts[k].tail.value) &&
      (forall h | h in r.jobs[j].counted :: h.KeyHolder? && h.key in ks && h.key in s.contexts)
  {
    var c := ExistingKeys(s, ks);
    ExistingKeysSpec(s, ks);
    IncHoldersFrame(s, c, ks);
    var s1 := IncHolders(s, c);
    var job := Job(TailSet(s.universal.tail) + ExistingTails(s, ks), c, queueId, isHighPriority, opaqueData);
    SetTailsSpec(s1.(jobs := s1.jobs[j := job], taskStats := Counted(s1.taskStats)), ks, j);
  }

  lemma {:induction false} PendingTailsSpec<K>(s: State<K>, order: seq<K>)
    ensures PendingTails(s, order) ==
      (set k | k in order && k in s.contexts && IsPendingContext(s, s.contexts[k].tail) :: s.contexts[k].tail.value)
    decreases |order|
  {
    if |order| > 0 {
      PendingTailsSpec(s, order[1..]);
      assert forall k | k in order :: k == order[0] || k in order[1..];
    }
  }

  /** A universal task waits for the universal tail and every key tail still pending, and becomes the universal tail. */
  lemma ScheduleUniversalSpec<K>(s: State<K>, j: JobRef, order: seq<K>, queueId: int, isHighPriority: bool, opaqueData: nat)
    requires forall k | k in s.contexts :: k in order
    ensures var r := ScheduleUniversal(s, j, order, queueId, isHighPriority, opaqueData);
      r.contexts == s.contexts && r.universal.tail == Some(j) &&
      r.universal.stats.posted == Inc(s.universal.stats.posted) && r.universal.stats.pending == Inc(s.universal.stats.pending) &&
      j in r.jobs &&
      r.jobs[j].waitsOn == TailSet(s.universal.tail) +
        (set k | k in s.contexts && IsPendingContext(s, s.contexts[k].tail) :: s.contexts[k].tail.value)
  {
    PendingTailsSpec(s, order);
  }

  // ------------------------------------------------------------------
  // The invariant is kept
  // ------------------------------------------------------------------

  lemma ScheduleSingleKeeps<K>(s: State<K>, j: JobRef, k: K, queueId: int, isHighPriority: bool, opaqueData: nat)
    requires Inv(s) && Newest(s, j)
    ensures var r := ScheduleSingle(s, j, k, queueId, isHighPriority, opaqueData);
      Inv(r) && r.jobs.Keys == s.jobs.Keys + {j}
  {
    var kd := if k in s.contexts then s.contexts[k] else EmptyKeyData();
    var r := ScheduleSingle(s, j, k, queueId, isHighPriority, opaqueData);
    assert j !in s.jobs;
    assert kd.tail.Some? ==> kd.tail.value in s.jobs;
    assert r.jobs[j].waitsOn == TailSet(kd.tail) + TailSet(s.universal.tail);
    forall k' | k' in r.contexts && r.contexts[k'].tail.Some?
      ensures r.contexts[k'].tail.value in r.jobs
    {
      if k' != k {
        assert r.contexts[k'] == s.contexts[k'];
      }
    }
    forall j', i | j' in r.jobs && i in r.jobs[j'].waitsOn
      ensures i in r.jobs && i < j'
    {
      if j' != j {
        assert r.jobs[j'] == s.jobs[j'];
      }
    }
    forall f | f in r.finished
      ensures f in r.jobs && r.jobs[f].waitsOn <= r.finished
    {
      assert f != j && r.jobs[f] == s.jobs[f];
    }
  }

  lemma ScheduleMultiKeeps<K>(s: State<K>, j: JobRef, ks: seq<K>, queueId: int, isHighPriority: bool, opaqueData: nat)
    requires Inv(s) && Newest(s, j)
    ensures var r := ScheduleMulti(s, j, ks, queueId, isHighPriority, opaqueData);
      Inv(r) && r.jobs.Keys == s.jobs.Keys + {j}
  {
    var c := ExistingKeys(s, ks);
    var s1 := IncHolders(s, c);
    var job := Job(TailSet(s.universal.tail) + ExistingTails(s, ks), c, queueId, isHighPriority, opaqueData);
    var s2 := s1.(jobs := s1.jobs[j := job], taskStats := Counted(s1.taskStats));
    assert s1.contexts.Keys == s.contexts.Keys && s1.universal.tail == s.universal.tail && s1.jobs == s.jobs &&
           s1.finished == s.finished && forall k | k in s.contexts :: s1.contexts[k].tail == s.contexts[k].tail
    by {
      ExistingKeysSpec(s, ks);
      IncHoldersFrame(s, c, ks);
    }
    var r := SetTails(s2, ks, j);
    assert r.jobs == s2.jobs && r.finished == s2.finished && r.universal.tail == s2.universal.tail &&
           (forall k | k in r.contexts && r.contexts[k].tail.Some? ::
              r.contexts[k].tail.value == j || (k in s2.contexts && r.contexts[k].tail == s2.contexts[k].tail))
    by {
      SetTailsSpec(s2, ks, j);
    }
    assert job.waitsOn <= s.jobs.Keys;
    NewJobKeeps(s, r, j, job);
  }

  /** Posting a new, newest job that waits only on posted jobs, and pointing tails at it or leaving them, keeps the invariant. */
  lemma NewJobKeeps<K>(s: State<K>, r: State<K>, j: JobRef, job: Job<K>)
    requires Inv(s) && Newest(s, j) && job.waitsOn <= s.jobs.Keys
    requires r.jobs == s.jobs[j := job] && r.finished == s.finished && r.universal.tail == s.universal.tail
    requires forall k | k in r.contexts && r.contexts[k].tail.Some? ::
               r.contexts[k].tail.value == j || (k in s.contexts && r.contexts[k].tail == s.contexts[k].tail)
    ensures Inv(r) && r.jobs.Keys == s.jobs.Keys + {j}
  {
    assert j !in s.jobs;
    forall j', i | j' in r.jobs && i in r.jobs[j'].waitsOn
      ensures i in r.jobs && i < j'
    {
      if j' != j {
        assert r.jobs[j'] == s.jobs[j'];
      }
    }
    forall f | f in r.finished
      ensures f in r.jobs && r.jobs[f].waitsOn <= r.finished
    {
      assert f != j && r.jobs[f] == s.jobs[f];
    }
  }

  lemma ScheduleUniversalKeeps<K>(s: State<K>, j: JobRef, order: seq<K>, queueId: int, isHighPriority: bool, opaqueData: nat)
    requires Inv(s) && Newest(s, j)
    ensures var r := ScheduleUniversal(s, j, order, queueId, isHighPriority, opaqueData);
      Inv(r) && r.jobs.Keys == s.jobs.Keys + {j}
  {
    PendingTailsSpec(s, order);
  }

  lemma {:induction false} DecHoldersFrame<K>(s: State<K>, hs: seq<Holder<K>>)
    ensures var r := DecHolders(s, hs);
      r.contexts.Keys == s.contexts.Keys && r.universal.tail == s.universal.tail && r.jobs == s.jobs &&
      r.finished == s.finished && r.taskStats == s.taskStats &&
      forall k | k in s.contexts :: r.contexts[k].tail == s.contexts[k].tail
    decreases |hs|
  {
    if |hs| > 0 {
      DecHoldersFrame(WithStats(s, hs[0], DecrementPending(Stats(s, hs[0]))), hs[1..]);
    }
  }

  lemma FinishKeeps<K>(s: State<K>, j: JobRef)
    requires Inv(s) && Runnable(s, j)
    ensures Inv(Finish(s, j)) && Finish(s, j).jobs == s.jobs && Finish(s, j).finished == s.finished + {j}
  {
    DecHoldersFrame(s, s.jobs[j].counted);
  }

  lemma TrimKeeps<K>(s: State<K>)
    requires Inv(s)
    ensures Inv(Trim(s))
  {
  }

  /** trimSequenceKeys keeps exactly the keys whose tail is still pending, unchanged. */
  lemma TrimSpec<K>(s: State<K>)
    ensures forall k :: k in Trim(s).contexts <==> k in s.contexts && IsPendingContext(s, s.contexts[k].tail)
    ensures forall k | k in Trim(s).contexts :: Trim(s).contexts[k] == s.contexts[k]
    ensures Trim(s).universal == s.universal && Trim(s).jobs == s.jobs && Trim(s).finished == s.finished
  {
  }

  // ------------------------------------------------------------------
  // Ordering
  // ------------------------------------------------------------------

  /** `p` follows waits: each task waits for the next one. */
  ghost predicate WaitChain<K>(s: State<K>, p: seq<JobRef>)
  {
    forall i | 0 <= i < |p| - 1 :: p[i] in s.jobs && p[i + 1] in s.jobs[p[i]].waitsOn
  }

  /** Once a task is done, so is every task it waited for, directly or through others. */
  lemma {:induction false} DoneAfterItsChain<K>(s: State<K>, p: seq<JobRef>)
    requires Inv(s) && WaitChain(s, p) && |p| > 0 && p[0] in s.finished
    ensures forall i | 0 <= i < |p| :: p[i] in s.finished
    decreases |p|
  {
    if |p| > 1 {
      assert p[1] in s.finished;
      assert WaitChain(s, p[1..]) by {
        forall i | 0 <= i < |p[1..]| - 1
          ensures p[1..][i] in s.jobs && p[1..][i + 1] in s.jobs[p[1..][i]].waitsOn
        {
          assert p[1..][i] == p[i + 1] && p[1..][i + 1] == p[i + 2];
        }
      }
      DoneAfterItsChain(s, p[1..]);
      forall i | 0 <= i < |p|
        ensures p[i] in s.finished
      {
        if i > 0 {
          assert p[i] == p[1..][i - 1];
        }
      }
    }
  }

  /** A task enqueued on a key while another task of that key is pending runs after it: it waits for the key's tail, and
      the tail waits, in turn, for the one before. */
  lemma SingleRunsAfterTail<K>(s: State<K>, j: JobRef, k: K, queueId: int, isHighPriority: bool, opaqueData: nat)
    requires Inv(s) && Newest(s, j) && k in s.contexts && IsPendingContext(s, s.contexts[k].tail)
    ensures var r := ScheduleSingle(s, j, k, queueId, isHighPriority, opaqueData);
      !Runnable(r, j) && WaitChain(r, [j, s.contexts[k].tail.value])
  {
  }

  /** A task enqueued while a universal task is pending runs after it, whatever its keys. */
  lemma RunsAfterUniversal<K>(s: State<K>, j: JobRef, ks: seq<K>, queueId: int, isHighPriority: bool, opaqueData: nat)
    requires Inv(s) && Newest(s, j) && IsPendingContext(s, s.universal.tail)
    ensures !Runnable(ScheduleMulti(s, j, ks, queueId, isHighPriority, opaqueData), j)
    ensures |ks| > 0 ==> !Runnable(ScheduleSingle(s, j, ks[0], queueId, isHighPriority, opaqueData), j)
  {
    ScheduleMultiSpec(s, j, ks, queueId, isHighPriority, opaqueData);
    ScheduleMultiKeeps(s, j, ks, queueId, isHighPriority, opaqueData);
  }

  // ------------------------------------------------------------------
  // Statistics: a task leaves every pending count as it found it
  // ------------------------------------------------------------------

  lemma StatsAfter<K>(s: State<K>, x: Holder<K>, c: Counters, h: Holder<K>)
    ensures Stats(WithStats(s, x, c), h) ==
      if x == h && (x.KeyHolder? ==> x.key in s.contexts) then c else Stats(s, h)
    ensures WithStats(s, x, c).contexts.Keys == s.contexts.Keys
  {
  }

  lemma ModShift(a: int, b: int)
    ensures (a % SIZE_MODULUS + b) % SIZE_MODULUS == (a + b) % SIZE_MODULUS
  {
    var q := a / SIZE_MODULUS;
    assert a == q * SIZE_MODULUS + a % SIZE_MODULUS;
    assert a + b == (a % SIZE_MODULUS + b) + q * SIZE_MODULUS;
  }

  lemma {:induction false} IncHoldersValue<K>(s: State<K>, hs: seq<Holder<K>>, h: Holder<K>)
    requires forall x | x in hs :: x.KeyHolder? ==> x.key in s.contexts
    ensures Stats(IncHolders(s, hs), h).pending == (Stats(s, h).pending + Occurrences(hs, h)) % SIZE_MODULUS
    ensures IncHolders(s, hs).contexts.Keys == s.contexts.Keys
    decreases |hs|
  {
    if |hs| == 0 {
    } else {
      var s1 := WithStats(s, hs[0], Counted(Stats(s, hs[0])));
      StatsAfter(s, hs[0], Counted(Stats(s, hs[0])), h);
      assert forall x | x in hs[1..] :: x in hs;
      IncHoldersValue(s1, hs[1..], h);
      var d := if hs[0] == h then 1 else 0;
      ModShift(Stats(s, h).pending + d, Occurrences(hs[1..], h));
    }
  }

  lemma {:induction false} DecHoldersValue<K>(s: State<K>, hs: seq<Holder<K>>, h: Holder<K>)
    requires forall x | x in hs :: x.KeyHolder? ==> x.key in s.contexts
    ensures Stats(DecHolders(s, hs), h).pending == (Stats(s, h).pending - Occurrences(hs, h)) % SIZE_MODULUS
    decreases |hs|
  {
    if |hs| == 0 {
    } else {
      var s1 := WithStats(s, hs[0], DecrementPending(Stats(s, hs[0])));
      StatsAfter(s, hs[0], DecrementPending(Stats(s, hs[0])), h);
      assert forall x | x in hs[1..] :: x in hs;
      DecHoldersValue(s1, hs[1..], h);
      var d := if hs[0] == h then 1 else 0;
      var o: int := Occurrences(hs[1..], h);
      ModShift(Stats(s, h).pending - d, -o);
    }
  }

  /** SetTails moves tails only; the statistics of a key that exists stay as they are. */
  lemma {:induction false} SetTailsKeepsStats<K>(s: State<K>, ks: seq<K>, j: JobRef, h: Holder<K>)
    requires h.KeyHolder? ==> h.key in s.contexts
    ensures Stats(SetTails(s, ks, j), h) == Stats(s, h)
    ensures SetTails(s, ks, j).contexts.Keys >= s.contexts.Keys
    ensures SetTails(s, ks, j).jobs == s.jobs && SetTails(s, ks, j).taskStats == s.taskStats
    decreases |ks|
  {
    if |ks| > 0 {
      var kd := if ks[0] in s.contexts then s.contexts[ks[0]] else EmptyKeyData();
      SetTailsKeepsStats(s.(contexts := s.contexts[ks[0] := kd.(tail := Some(j))]), ks[1..], j, h);
    }
  }

  /** A key SetTails creates starts from zero counts. */
  lemma {:induction false} SetTailsNewKey<K>(s: State<K>, ks: seq<K>, j: JobRef, k: K)
    requires k !in s.contexts
    ensures Stats(SetTails(s, ks, j), KeyHolder(k)) == NewCounters()
    decreases |ks|
  {
    if |ks| > 0 {
      var kd := if ks[0] in s.contexts then s.contexts[ks[0]] else EmptyKeyData();
      var s1 := s.(contexts := s.contexts[ks[0] := kd.(tail := Some(j))]);
      if ks[0] == k {
        SetTailsKeepsStats(s1, ks[1..], j, KeyHolder(k));
      } else {
        SetTailsNewKey(s1, ks[1..], j, k);
      }
    }
  }

  lemma ModRoundTrip(p: Size, n: nat)
    ensures ((p + n) % SIZE_MODULUS - n) % SIZE_MODULUS == p
  {
    var m: int := n;
    ModShift(p + n, -m);
  }

  /** What ScheduleMulti leaves behind for one holder: the job counted in `c`, the holder's statistics as counting left
      them (zero for a key the task created). */
  lemma MultiShape<K>(s: State<K>, j: JobRef, ks: seq<K>, queueId: int, isHighPriority: bool, opaqueData: nat, h: Holder<K>)
    ensures var r := ScheduleMulti(s, j, ks, queueId, isHighPriority, opaqueData);
      var c := ExistingKeys(s, ks);
      j in r.jobs && r.jobs[j].counted == c && r.taskStats == Counted(s.taskStats) &&
      (forall x | x in c :: x.KeyHolder? ==> x.key in r.contexts) &&
      (forall x | x in c :: x.KeyHolder? ==> x.key in s.contexts) &&
      ((h.KeyHolder? ==> h.key in s.contexts) ==> Stats(r, h) == Stats(IncHolders(s, c), h)) &&
      (h.KeyHolder? && h.key !in s.contexts ==> Stats(r, h) == NewCounters())
  {
    var c := ExistingKeys(s, ks);
    ExistingKeysSpec(s, ks);
    IncHoldersFrame(s, c, ks);
    var s1 := IncHolders(s, c);
    var job := Job(TailSet(s.universal.tail) + ExistingTails(s, ks), c, queueId, isHighPriority, opaqueData);
    var s2 := s1.(jobs := s1.jobs[j := job], taskStats := Counted(s1.taskStats));
    SetTailsKeepsStats(s2, ks, j, UniversalHolder);
    if h.KeyHolder? && h.key !in s.contexts {
      SetTailsNewKey(s2, ks, j, h.key);
    } else {
      SetTailsKeepsStats(s2, ks, j, h);
    }
  }

  /** A multi-key task that is scheduled and then finishes leaves every pending count where it was (a key it created
      is back at zero). */
  lemma MultiPendingRestored<K>(s: State<K>, j: JobRef, ks: seq<K>, queueId: int, isHighPriority: bool, opaqueData: nat, h: Holder<K>)
    ensures var r := Finish(ScheduleMulti(s, j, ks, queueId, isHighPriority, opaqueData), j);
      Stats(r, h).pending == Stats(s, h).pending && r.taskStats.pending == s.taskStats.pending
  {
    var r1 := ScheduleMulti(s, j, ks, queueId, isHighPriority, opaqueData);
    var c := ExistingKeys(s, ks);
    MultiShape(s, j, ks, queueId, isHighPriority, opaqueData, h);
    var s1 := DecHolders(r1, c);
    var r := Finish(r1, j);
    assert r == s1.(finished := s1.finished + {j}, taskStats := DecrementPending(s1.taskStats));
    DecHoldersFrame(r1, c);
    assert r.taskStats == DecrementPending(Counted(s.taskStats));
    PendingRoundTrip(IncrementPosted(s.taskStats));
    MultiCounted(s, r1, c, h);
    MultiHolderRestored(s, r1, c, h);
    assert Stats(r, h) == Stats(s1, h);
  }

  /** What ScheduleMulti's counting did to one holder: its pending count rose by the times the holder occurs in `c`
      (a key the task created is at zero and occurs nowhere in `c`). */
  lemma MultiCounted<K>(s: State<K>, r1: State<K>, c: seq<Holder<K>>, h: Holder<K>)
    requires forall x | x in c :: x.KeyHolder? ==> x.key in s.contexts
    requires (h.KeyHolder? ==> h.key in s.contexts) ==> Stats(r1, h) == Stats(IncHolders(s, c), h)
    requires h.KeyHolder? && h.key !in s.contexts ==> Stats(r1, h) == NewCounters()
    ensures Stats(r1, h).pending == (Stats(s, h).pending + Occurrences(c, h)) % SIZE_MODULUS
  {
    if h.KeyHolder? && h.key !in s.contexts {
      OccurrencesAbsent(c, h);
    } else {
      IncHoldersValue(s, c, h);
    }
  }

  /** The holder part of MultiPendingRestored: dropping the holders in `c` undoes counting them. */
  lemma MultiHolderRestored<K>(s: State<K>, r1: State<K>, c: seq<Holder<K>>, h: Holder<K>)
    requires forall x | x in c :: x.KeyHolder? ==> x.key in r1.contexts
    requires Stats(r1, h).pending == (Stats(s, h).pending + Occurrences(c, h)) % SIZE_MODULUS
    ensures Stats(DecHolders(r1, c), h).pending == Stats(s, h).pending
  {
    DecHoldersValue(r1, c, h);
    RoundTripValues(Stats(s, h).pending, Stats(r1, h).pending, Stats(DecHolders(r1, c), h).pending, Occurrences(c, h));
  }

  /** Adding o and then taking it away again, modulo 2^64. */
  lemma RoundTripValues(p: Size, q: Size, d: Size, o: nat)
    requires q == (p + o) % SIZE_MODULUS
    requires d == (q - o) % SIZE_MODULUS
    ensures d == p
  {
    ModRoundTrip(p, o);
  }

  lemma {:induction false} OccurrencesAbsent<K>(hs: seq<Holder<K>>, h: Holder<K>)
    requires h !in hs
    ensures Occurrences(hs, h) == 0
    decreases |hs|
  {
    if |hs| > 0 {
      assert forall x | x in hs[1..] :: x in hs;
      OccurrencesAbsent(hs[1..], h);
    }
  }

  lemma SinglePendingRestored<K>(s: State<K>, j: JobRef, k: K, queueId: int, isHighPriority: bool, opaqueData: nat, h: Holder<K>)
    ensures var r := Finish(ScheduleSingle(s, j, k, queueId, isHighPriority, opaqueData), j);
      Stats(r, h).pending == Stats(s, h).pending && r.taskStats.pending == s.taskStats.pending
  {
    var r1 := ScheduleSingle(s, j, k, queueId, isHighPriority, opaqueData);
    var hs := [KeyHolder(k)];
    assert hs[1..] == [];
    assert r1.jobs[j].counted == hs;
    var d := WithStats(r1, hs[0], DecrementPending(Stats(r1, hs[0])));
    assert DecHolders(r1, hs) == d;
    StatsAfter(r1, hs[0], DecrementPending(Stats(r1, hs[0])), h);
  }

  lemma UniversalPendingRestored<K>(s: State<K>, j: JobRef, order: seq<K>, queueId: int, isHighPriority: bool, opaqueData: nat, h: Holder<K>)
    ensures var r := Finish(ScheduleUniversal(s, j, order, queueId, isHighPriority, opaqueData), j);
      Stats(r, h).pending == Stats(s, h).pending && r.taskStats.pending == s.taskStats.pending
  {
    var u: seq<Holder<K>> := [UniversalHolder];
    assert u[1..] == [];
  }

  // ------------------------------------------------------------------
  // As written: a multi-key task is also decremented in the universal statistics
  // ------------------------------------------------------------------

  /** multiSequenceKeyTaskScheduler as written: the universal context heads the dependents, and waitForDependents
      decrements the pending count of every dependent. */
  function ScheduleMultiAsWritten<K>(s: State<K>, j: JobRef, ks: seq<K>, queueId: int, isHighPriority: bool, opaqueData: nat): State<K>
  {
    var c := ExistingKeys(s, ks);
    var s1 := IncHolders(s, c);
    var job := Job(TailSet(s.universal.tail) + ExistingTails(s, ks), [UniversalHolder] + c, queueId, isHighPriority, opaqueData);
    SetTails(s1.(jobs := s1.jobs[j := job], taskStats := Counted(s1.taskStats)), ks, j)
  }

  /** enqueue({1}, f) on a new sequencer, as written: once the task is done the universal pending count wraps to 2^64 - 1,
      though no universal task was ever posted. */
  lemma MultiUniversalUnderflow()
    ensures var r := Finish(ScheduleMultiAsWritten(InitialState<int>(), 0, [1], ANY, false, 0), 0);
      r.universal.stats.posted == 0 && r.universal.stats.pending == SIZE_MODULUS - 1
  {
    var s0 := InitialState<int>();
    assert ExistingKeys(s0, [1]) == [] by {
      assert [1][..0] == [];
    }
    var r1 := ScheduleMultiAsWritten(s0, 0, [1], ANY, false, 0);
    assert r1.universal == s0.universal by {
      SetTailsSpec(s0.(jobs := s0.jobs[0 := Job({}, [UniversalHolder], ANY, false, 0)], taskStats := Counted(s0.taskStats)), [1], 0);
    }
    assert r1.jobs[0].counted == [UniversalHolder];
    var u: seq<Holder<int>> := [UniversalHolder];
    assert u[1..] == [];
  }

  // ------------------------------------------------------------------
  // The object
  // ------------------------------------------------------------------

  class Sequencer<K(==)> {
    const controllerQueueId: int
    const hasExceptionCallback: bool
    /** _contexts */
    var contexts: map<K, KeyData>
    /** _universalContext */
    var universal: KeyData
    var jobs: map<JobRef, Job<K>>
    var finished: set<JobRef>
    /** _taskStats */
    var taskStats: Counters
    var nextJob: JobRef
    /** _drain */
    var draining: bool

    function Snapshot(): State<K>
      reads this
    {
      State(contexts, universal, jobs, finished, taskStats)
    }

    ghost predicate Valid()
      reads this
    {
      Inv(Snapshot()) && Newest(Snapshot(), nextJob)
    }

    constructor (controllerQueueId: int, hasExceptionCallback: bool)
      ensures Valid() && Snapshot() == InitialState() && !draining && nextJob == 0
      ensures this.controllerQueueId == controllerQueueId && this.hasExceptionCallback == hasExceptionCallback
    {
      this.controllerQueueId := controllerQueueId;
      this.hasExceptionCallback := hasExceptionCallback;
      contexts := map[];
      universal := EmptyKeyData();
      jobs := map[];
      finished := {};
      taskStats := NewCounters();
      nextJob := 0;
      draining := false;
    }

    /** The constructor with its check: out_of_range unless 0 <= controllerQueueId < numCoroutineThreads. */
    static method Create(controllerQueueId: int, numCoroutineThreads: int, hasExceptionCallback: bool)
      returns (r: Outcome<Sequencer<K>>)
      ensures var g := ControlQueueCheck(controllerQueueId, numCoroutineThreads);
        if g.Some? then r == Throw(g.value)
        else r.Ok? && fresh(r.value) && r.value.Valid() && r.value.Snapshot() == InitialState() &&
             r.value.controllerQueueId == controllerQueueId && !r.value.draining
    {
      var g := ControlQueueCheck(controllerQueueId, numCoroutineThreads);
      if g.Some? {
        return Throw(g.value);
      }
      var sequencer := new Sequencer(controllerQueueId, hasExceptionCallback);
      r := Ok(sequencer);
    }

    method NewJob() returns (j: JobRef)
      requires Valid()
      modifies this
      ensures j == old(nextJob) && nextJob == j + 1 && Snapshot() == old(Snapshot()) && draining == old(draining)
      ensures Inv(Snapshot()) && Newest(Snapshot(), j)
    {
      j := nextJob;
      nextJob := nextJob + 1;
    }

    /** singleSequenceKeyTaskScheduler */
    method ScheduleSingleKey(k: K, queueId: int, isHighPriority: bool, opaqueData: nat) returns (j: JobRef)
      requires Valid()
      modifies this
      ensures Valid() && j == old(nextJob) && draining == old(draining)
      ensures Snapshot() == ScheduleSingle(old(Snapshot()), j, k, queueId, isHighPriority, opaqueData)
    {
      ghost var s0 := Snapshot();
      j := NewJob();
      var kd := if k in contexts then contexts[k] else EmptyKeyData();
      kd := kd.(stats := Counted(kd.stats));
      taskStats := Counted(taskStats);
      var job := Job(TailSet(kd.tail) + TailSet(universal.tail), [KeyHolder(k)], queueId, isHighPriority, opaqueData);
      jobs := jobs[j := job];
      contexts := contexts[k := kd.(tail := Some(j))];
      ScheduleSingleKeeps(s0, j, k, queueId, isHighPriority, opaqueData);
    }

    /** The first loop of multiSequenceKeyTaskScheduler. */
    method CountExistingKeys(ks: seq<K>) returns (waits: set<JobRef>, counted: seq<Holder<K>>)
      modifies this
      ensures counted == ExistingKeys(old(Snapshot()), ks) && waits == ExistingTails(old(Snapshot()), ks)
      ensures Snapshot() == IncHolders(old(Snapshot()), counted)
      ensures nextJob == old(nextJob) && draining == old(draining)
    {
      ghost var s0 := Snapshot();
      waits := {};
      counted := [];
      var i := 0;
      while i < |ks|
        invariant 0 <= i <= |ks|
        invariant counted == ExistingKeys(s0, ks[..i]) && waits == ExistingTails(s0, ks[..i])
        invariant Snapshot() == IncHolders(s0, counted)
        invariant nextJob == old(nextJob) && draining == old(draining)
      {
        CountStep(s0, ks, i, counted, waits, Snapshot());
        var k := ks[i];
        if k in contexts {
          var kd := contexts[k];
          contexts := contexts[k := kd.(stats := Counted(kd.stats))];
          waits := waits + TailSet(kd.tail);
          counted := counted + [KeyHolder(k)];
        }
        i := i + 1;
      }
      assert ks[..i] == ks;
    }

    /** The second loop of multiSequenceKeyTaskScheduler. */
    method SetKeyTails(ks: seq<K>, j: JobRef)
      modifies this
      ensures Snapshot() == SetTails(old(Snapshot()), ks, j)
      ensures nextJob == old(nextJob) && draining == old(draining)
    {
      ghost var s0 := Snapshot();
      var i := 0;
      while i < |ks|
        invariant 0 <= i <= |ks|
        invariant SetTails(s0, ks, j) == SetTails(Snapshot(), ks[i..], j)
        invariant nextJob == old(nextJob) && draining == old(draining)
      {
        assert ks[i..][0] == ks[i] && ks[i..][1..] == ks[i + 1..];
        var kd := if ks[i] in contexts then contexts[ks[i]] else EmptyKeyData();
        contexts := contexts[ks[i] := kd.(tail := Some(j))];
        i := i + 1;
      }
      assert ks[i..] == [];
    }

    /** multiSequenceKeyTaskScheduler: count the existing keys and collect their tails, post, then set every key's tail. */
    method ScheduleMultiKey(ks: seq<K>, queueId: int, isHighPriority: bool, opaqueData: nat) returns (j: JobRef)
      requires Valid()
      modifies this
      ensures Valid() && j == old(nextJob) && draining == old(draining)
      ensures Snapshot() == ScheduleMulti(old(Snapshot()), j, ks, queueId, isHighPriority, opaqueData)
    {
      ghost var s0 := Snapshot();
      j := NewJob();
      var universalWait := TailSet(universal.tail);
      var waits, counted := CountExistingKeys(ks);
      ExistingKeysSpec(s0, ks);
      IncHoldersFrame(s0, counted, ks);
      taskStats := Counted(taskStats);
      jobs := jobs[j := Job(universalWait + waits, counted, queueId, isHighPriority, opaqueData)];
      SetKeyTails(ks, j);
      ScheduleMultiKeeps(s0, j, ks, queueId, isHighPriority, opaqueData);
    }

    /** universalTaskScheduler: collect the pending key tails (in map order), count, post, become the universal tail. */
    method ScheduleAll(order: seq<K>, queueId: int, isHighPriority: bool, opaqueData: nat) returns (j: JobRef)
      requires Valid() && forall k | k in contexts :: k in order
      modifies this
      ensures Valid() && j == old(nextJob) && draining == old(draining)
      ensures Snapshot() == ScheduleUniversal(old(Snapshot()), j, order, queueId, isHighPriority, opaqueData)
    {
      ghost var s0 := Snapshot();
      j := NewJob();
      var waits: set<JobRef> := {};
      var i := 0;
      while i < |order|
        invariant 0 <= i <= |order|
        invariant PendingTails(s0, order) == waits + PendingTails(s0, order[i..])
        invariant Snapshot() == s0 && nextJob == j + 1 && draining == old(draining)
      {
        assert order[i..][0] == order[i] && order[i..][1..] == order[i + 1..];
        var k := order[i];
        if k in contexts && contexts[k].tail.Some? && contexts[k].tail.value !in finished {
          waits := waits + {contexts[k].tail.value};
        }
        i := i + 1;
      }
      universal := universal.(stats := Counted(universal.stats));
      taskStats := Counted(taskStats);
      jobs := jobs[j := Job(waits + TailSet(universal.tail), [UniversalHolder], queueId, isHighPriority, opaqueData)];
      universal := universal.(tail := Some(j));
      ScheduleUniversalKeeps(s0, j, order, queueId, isHighPriority, opaqueData);
    }

    /** enqueue(key, ...): the guards, then the single-key scheduler. */
    method EnqueueSingle(k: K, queueId: int, isHighPriority: bool, opaqueData: nat) returns (r: Outcome<JobRef>)
      requires Valid()
      modifies this
      ensures Valid() && draining == old(draining)
      ensures var g := EnqueueGuard(draining, queueId);
        if g.Some? then r == Throw(g.value) && Snapshot() == old(Snapshot())
        else r == Ok(old(nextJob)) && Snapshot() == ScheduleSingle(old(Snapshot()), r.value, k, queueId, isHighPriority, opaqueData)
    {
      var g := EnqueueGuard(draining, queueId);
      if g.Some? {
        return Throw(g.value);
      }
      var j := ScheduleSingleKey(k, queueId, isHighPriority, opaqueData);
      r := Ok(j);
    }

    /** enqueue(keys, ...): the guards, then the multi-key scheduler. */
    method EnqueueMultiple(ks: seq<K>, queueId: int, isHighPriority: bool, opaqueData: nat) returns (r: Outcome<JobRef>)
      requires Valid()
      modifies this
      ensures Valid() && draining == old(draining)
      ensures var g := EnqueueGuard(draining, queueId);
        if g.Some? then r == Throw(g.value) && Snapshot() == old(Snapshot())
        else r == Ok(old(nextJob)) && Snapshot() == ScheduleMulti(old(Snapshot()), r.value, ks, queueId, isHighPriority, opaqueData)
    {
      var g := EnqueueGuard(draining, queueId);
      if g.Some? {
        return Throw(g.value);
      }
      var j := ScheduleMultiKey(ks, queueId, isHighPriority, opaqueData);
      r := Ok(j);
    }

    /** enqueueAll: the guards, then the universal scheduler. */
    method EnqueueAll(order: seq<K>, queueId: int, isHighPriority: bool, opaqueData: nat) returns (r: Outcome<JobRef>)
      requires Valid() && forall k | k in contexts :: k in order
      modifies this
      ensures Valid() && draining == old(draining)
      ensures var g := EnqueueGuard(draining, queueId);
        if g.Some? then r == Throw(g.value) && Snapshot() == old(Snapshot())
        else r == Ok(old(nextJob)) && Snapshot() == ScheduleUniversal(old(Snapshot()), r.value, order, queueId, isHighPriority, opaqueData)
    {
      var g := EnqueueGuard(draining, queueId);
      if g.Some? {
        return Throw(g.value);
      }
      var j := ScheduleAll(order, queueId, isHighPriority, opaqueData);
      r := Ok(j);
    }

    /** waitForTwoDependents / waitForDependents / waitForUniversalDependent, once every awaited context is done: call the
        function (callPosted), report an exception with the opaque pointer when a callback is configured, then decrement
        the pending counts. */
    method Run(j: JobRef, body: Outcome<()>) returns (rc: int, report: Option<(Failure, nat)>)
      requires Valid() && Runnable(Snapshot(), j)
      modifies this
      ensures Valid() && draining == old(draining) && nextJob == old(nextJob)
      ensures rc == CallPosted(body)
      ensures report.Some? <==> body.Throw? && hasExceptionCallback
      ensures report.Some? ==> report.value == (body.failure, old(jobs[j].opaqueData))
      ensures Snapshot() == Finish(old(Snapshot()), j)
    {
      ghost var s0 := Snapshot();
      rc := CallPosted(body);
      report := None;
      if body.Throw? && hasExceptionCallback {
        report := Some((body.failure, jobs[j].opaqueData));
      }
      DecrementHolders(jobs[j].counted);
      assert Snapshot() == DecHolders(s0, s0.jobs[j].counted);
      finished := finished + {j};
      taskStats := DecrementPending(taskStats);
      FinishKeeps(s0, j);
    }

    /** The decrement loop of Run: decrementPendingTaskCount on every context the job counted itself in, in order. */
    method DecrementHolders(hs: seq<Holder<K>>)
      modifies this
      ensures Snapshot() == DecHolders(old(Snapshot()), hs)
      ensures nextJob == old(nextJob) && draining == old(draining)
    {
      ghost var s0 := Snapshot();
      var i := 0;
      while i < |hs|
        invariant 0 <= i <= |hs|
        invariant DecHolders(s0, hs) == DecHolders(Snapshot(), hs[i..])
        invariant nextJob == old(nextJob) && draining == old(draining)
      {
        assert hs[i..][0] == hs[i] && hs[i..][1..] == hs[i + 1..];
        match hs[i] {
          case UniversalHolder =>
            universal := universal.(stats := DecrementPending(universal.stats));
          case KeyHolder(k) =>
            // an erased key is not updated; see WithStats
            if k in contexts {
              contexts := contexts[k := contexts[k].(stats := DecrementPending(contexts[k].stats))];
            }
        }
        i := i + 1;
      }
    }

    /** trimSequenceKeys: erase, in map order, every key whose tail can be trimmed; return how many keys remain. */
    method TrimSequenceKeys(order: seq<K>) returns (n: nat)
      requires Valid() && NoDupKeys(order) && forall k | k in contexts :: k in order
      modifies this
      ensures Valid() && Snapshot() == Trim(old(Snapshot())) && n == |contexts|
      ensures nextJob == old(nextJob) && draining == old(draining)
    {
      ghost var s0 := Snapshot();
      ghost var visited: set<K> := {};
      var i := 0;
      while i < |order|
        invariant 0 <= i <= |order|
        invariant contexts == TrimmedBy(s0, visited)
        invariant forall j | i <= j < |order| :: order[j] !in visited
        invariant forall j | 0 <= j < i :: order[j] in visited
        invariant universal == s0.universal && jobs == s0.jobs && finished == s0.finished && taskStats == s0.taskStats
        invariant nextJob == old(nextJob) && draining == old(draining)
      {
        var k := order[i];
        if k in contexts && (contexts[k].tail.None? || contexts[k].tail.value in finished) {
          contexts := contexts - {k};
        }
        TrimmedByStep(s0, visited, k);
        visited := visited + {k};
        i := i + 1;
      }
      assert contexts == Trim(s0).contexts by {
        assert forall k | k in s0.contexts :: k in visited;
      }
      n := |contexts|;
      TrimKeeps(s0);
    }

    /** getStatistics(key): a copy of the key's counters, or zero counters for an unknown key. */
    method GetStatistics(k: K) returns (c: Counters)
      ensures c == Stats(Snapshot(), KeyHolder(k))
    {
      c := if k in contexts then contexts[k].stats else NewCounters();
    }

    /** getStatistics(): the universal counters. */
    method GetUniversalStatistics() returns (c: Counters)
      ensures c == Stats(Snapshot(), UniversalHolder)
    {
      c := universal.stats;
    }

    /** getTaskStatistics */
    method GetTaskStatistics() returns (c: Counters)
      ensures c == taskStats
    {
      c := taskStats;
    }

    /** getSequenceKeyCount */
    method GetSequenceKeyCount() returns (n: nat)
      ensures n == |contexts|
    {
      n := |contexts|;
    }

    /** drain: enqueue a universal task and hold the sequencer disabled while waiting for it; a final drain leaves it
        disabled.  Unlike SequencerLite, nothing is returned. */
    method Drain(order: seq<K>, isFinal: bool) returns (r: Outcome<()>)
      requires Valid() && forall k | k in contexts :: k in order
      modifies this
      ensures Valid()
      ensures var g := EnqueueGuard(old(draining), ANY);
        if g.Some? then r == Throw(g.value) && Snapshot() == old(Snapshot()) && draining == old(draining)
        else r == Ok(()) && draining == isFinal &&
             Snapshot() == ScheduleUniversal(old(Snapshot()), old(nextJob), order, ANY, false, 0)
    {
      var e := EnqueueAll(order, ANY, false, 0);
      if e.Throw? {
        return Throw(e.failure);
      }
      draining := true;
      r := Ok(());
      if !isFinal {
        draining := false;
      }
    }
  }

  predicate NoDupKeys<K(==)>(order: seq<K>)
  {
    forall i, j | 0 <= i < j < |order| :: order[i] != order[j]
  }

  /** The key map after the keys in `visited` were checked: the trimmable ones are gone. */
  function TrimmedBy<K>(s: State<K>, visited: set<K>): map<K, KeyData>
  {
    map k | k in s.contexts && (k !in visited || !CanTrimContext(s, s.contexts[k].tail)) :: s.contexts[k]
  }

  lemma TrimmedByStep<K>(s: State<K>, visited: set<K>, k: K)
    requires k !in visited
    ensures var m := TrimmedBy(s, visited);
      TrimmedBy(s, visited + {k}) ==
        if k in m && CanTrimContext(s, m[k].tail) then m - {k} else m
  {
  }
}
