// The pending-task graph shared by SequencerLite (quantum_sequencer_lite_impl.h)
// and experimental::Sequencer (quantum_sequencer_experimental_impl.h).
//
// Every sequence key owns a FIFO of pending tasks, and so does the
// "universal" key.  A task sits in the FIFO of each key it was enqueued with
// (a universal task in every FIFO), and carries `pendingKeyCount`: the
// number of FIFOs in which it is not yet at the head.  A task is handed to
// the dispatcher when that count is 0; when it completes it is popped from
// the head of its FIFOs, and each new head has its count decremented.
//
// The C++ tasks are shared_ptr objects; here a task is a `TaskRef` into the
// `tasks` map, and `posted` records the tasks handed to the dispatcher, in
// order.  `done` is model bookkeeping: the tasks whose completion has been
// processed.
module SequencerCore {
  import opened Wrappers
  import opened KeyStatistics

  type TaskRef = nat

  /** A FIFO: the queue of a sequence key, or the universal queue. */
  datatype QueueName<K> = KeyQueue(key: K) | UniversalQueue

  /** SequencerLiteTask / SequencerTask, without the callable. */
  datatype Task<K> = Task(universal: bool, keyData: seq<K>, pendingKeyCount: nat,
                          queueId: int, isHighPriority: bool, opaqueData: nat)

  /** SequencerLiteKeyData / SequencerKeyData: the FIFO of a key and its statistics. */
  datatype KeyData = KeyData(tasks: seq<TaskRef>, stats: Counters)

  datatype State<K> = State(keys: map<K, KeyData>, universal: KeyData, tasks: map<TaskRef, Task<K>>,
                            taskStats: Counters, posted: seq<TaskRef>, done: set<TaskRef>)

  function InitialState<K>(): State<K>
  {
    State(map[], KeyData([], NewCounters()), map[], NewCounters(), [], {})
  }

  const UINT_MAX: nat := 0xFFFF_FFFF

  predicate NoDup<T(==)>(s: seq<T>)
  {
    forall i, j | 0 <= i < j < |s| :: s[i] != s[j]
  }

  // ------------------------------------------------------------------
  // Queries
  // ------------------------------------------------------------------

  function Queue<K>(s: State<K>, q: QueueName<K>): seq<TaskRef>
  {
    match q
    case UniversalQueue => s.universal.tasks
    case KeyQueue(k) => if k in s.keys then s.keys[k].tasks else []
  }

  function Names<K>(s: State<K>): set<QueueName<K>>
  {
    (set k | k in s.keys :: KeyQueue(k)) + {UniversalQueue}
  }

  /** `t` is in the FIFO but not at its head. */
  predicate Waiting(q: seq<TaskRef>, t: TaskRef)
  {
    t in q && q[0] != t
  }

  /** The FIFOs in which `t` waits behind another task. */
  ghost function Blocking<K>(s: State<K>, t: TaskRef): set<QueueName<K>>
  {
    set q | q in Names(s) && Waiting(Queue(s, q), t)
  }

  function Count<K>(s: State<K>, t: TaskRef): nat
  {
    if t in s.tasks then s.tasks[t].pendingKeyCount else 0
  }

  // ------------------------------------------------------------------
  // The invariant
  // ------------------------------------------------------------------

  /** No FIFO holds a task twice and every queued task exists. */
  ghost predicate WellFormed<K>(s: State<K>)
  {
    (forall q | q in Names(s) :: NoDup(Queue(s, q))) &&
    (forall q, t | q in Names(s) && t in Queue(s, q) :: t in s.tasks)
  }

  /** pendingKeyCount is exactly the number of FIFOs where the task is not at the head. */
  ghost predicate CountsExact<K>(s: State<K>)
  {
    forall t | t in s.tasks :: s.tasks[t].pendingKeyCount == |Blocking(s, t)|
  }

  /** Each task is posted at most once, and (outside `skip`) posted exactly when its count is 0. */
  ghost predicate PostedIffReady<K>(s: State<K>, skip: set<TaskRef>)
  {
    NoDup(s.posted) &&
    (forall t | t in s.posted :: t in s.tasks) &&
    (forall t | t in s.tasks && t !in skip :: t in s.posted <==> s.tasks[t].pendingKeyCount == 0)
  }

  /** A universal task sits in every FIFO. */
  ghost predicate UniversalPlaced<K>(s: State<K>, t: TaskRef)
  {
    forall q | q in Names(s) :: t in Queue(s, q)
  }

  /** A keyed task sits in exactly the FIFOs of the keys recorded in its keyData, once each, and not in the universal FIFO. */
  ghost predicate KeyedPlaced<K>(s: State<K>, t: TaskRef)
    requires t in s.tasks
  {
    t !in Queue(s, UniversalQueue) && NoDup(s.tasks[t].keyData) &&
    (forall k | k in s.tasks[t].keyData :: k in s.keys && t in Queue(s, KeyQueue(k))) &&
    (forall k | k in s.keys && t in Queue(s, KeyQueue(k)) :: k in s.tasks[t].keyData)
  }

  /** Where the live tasks (outside `skip`) sit. */
  ghost predicate Members<K>(s: State<K>, skip: set<TaskRef>)
  {
    forall t | t in s.tasks && t !in skip && t !in s.done ::
      if s.tasks[t].universal then UniversalPlaced(s, t) else KeyedPlaced(s, t)
  }

  /** Completed tasks were posted and have left every FIFO. */
  ghost predicate DoneGone<K>(s: State<K>)
  {
    forall t | t in s.done :: t in s.tasks && t in s.posted && (forall q | q in Names(s) :: t !in Queue(s, q))
  }

  /** The invariant with the posting rule suspended for `ps` and the placement rule for `ms`: the shape in the middle of an operation. */
  ghost predicate Partial<K>(s: State<K>, ps: set<TaskRef>, ms: set<TaskRef>)
  {
    WellFormed(s) && CountsExact(s) && PostedIffReady(s, ps) && Members(s, ms) && DoneGone(s)
  }

  ghost predicate Inv<K>(s: State<K>)
  {
    Partial(s, {}, {})
  }

  // ------------------------------------------------------------------
  // Primitive steps
  // ------------------------------------------------------------------

  function WithQueue<K>(s: State<K>, q: QueueName<K>, ts: seq<TaskRef>): State<K>
  {
    match q
    case UniversalQueue => s.(universal := s.universal.(tasks := ts))
    case KeyQueue(k) => if k in s.keys then s.(keys := s.keys[k := s.keys[k].(tasks := ts)]) else s
  }

  function IncCount<K>(m: map<TaskRef, Task<K>>, t: TaskRef): map<TaskRef, Task<K>>
  {
    if t in m then m[t := m[t].(pendingKeyCount := m[t].pendingKeyCount + 1)] else m
  }

  /** `--pendingKeyCount` on an unsigned int. */
  function DecCount<K>(m: map<TaskRef, Task<K>>, t: TaskRef): map<TaskRef, Task<K>>
  {
    if t !in m then m
    else
      var c := m[t].pendingKeyCount;
      m[t := m[t].(pendingKeyCount := if c == 0 then UINT_MAX else c - 1)]
  }

  /** push_back onto a FIFO; the task's count rises when it does not land at the head. Returns whether the FIFO was empty. */
  function Push<K>(s: State<K>, q: QueueName<K>, t: TaskRef): (State<K>, bool)
  {
    var empty := |Queue(s, q)| == 0;
    var s1 := WithQueue(s, q, Queue(s, q) + [t]);
    (if empty then s1 else s1.(tasks := IncCount(s1.tasks, t)), empty)
  }

  /** The counts after seeding a FIFO with `us` in order: every task but the first lands behind another. */
  function Seeded<K>(m: map<TaskRef, Task<K>>, us: seq<TaskRef>): map<TaskRef, Task<K>>
    decreases |us|
  {
    if |us| <= 1 then m else IncCount(Seeded(m, us[..|us| - 1]), us[|us| - 1])
  }

  /** Seeding one more universal task: it waits once more unless it heads the FIFO. */
  lemma SeededStep<K>(m: map<TaskRef, Task<K>>, us: seq<TaskRef>, i: nat)
    requires i < |us|
    ensures Seeded(m, us[..i + 1]) == if i == 0 then Seeded(m, us[..i]) else IncCount(Seeded(m, us[..i]), us[i])
  {
    assert us[..i + 1][..i] == us[..i];
  }

  /** A new key queue starts with every pending universal task, in universal order. */
  function CreateKey<K>(s: State<K>, k: K): State<K>
  {
    s.(keys := s.keys[k := KeyData(s.universal.tasks, NewCounters())],
       tasks := Seeded(s.tasks, s.universal.tasks))
  }

  /** Statistics of a key queue, when it exists. */
  function UpdateKeyStats<K>(keys: map<K, KeyData>, k: K, f: Counters -> Counters): map<K, KeyData>
  {
    if k in keys then keys[k := keys[k].(stats := f(keys[k].stats))] else keys
  }

  function DecKeyStats<K>(keys: map<K, KeyData>, ks: seq<K>): map<K, KeyData>
    decreases |ks|
  {
    if |ks| == 0 then keys else DecKeyStats(UpdateKeyStats(keys, ks[0], DecrementPending), ks[1..])
  }

  /** addPendingTask(task): join the universal FIFO and count it in the universal statistics. */
  function AddUniversal<K>(s: State<K>, t: TaskRef): (State<K>, bool)
  {
    var (s1, empty) := Push(s, UniversalQueue, t);
    (s1.(universal := s1.universal.(stats := IncrementPending(IncrementPosted(s1.universal.stats)))), empty)
  }

  /** addPendingTask(key, task): create and seed a missing key, then join its FIFO. */
  function AddKeyed<K>(s: State<K>, k: K, t: TaskRef): (State<K>, bool)
  {
    JoinKey(if k in s.keys then s else CreateKey(s, k), k, t)
  }

  /** The rest of addPendingTask(key, task): push_back, and for a keyed task record the key and count it in the key's statistics. */
  function JoinKey<K>(s0: State<K>, k: K, t: TaskRef): (State<K>, bool)
  {
    var (s1, empty) := Push(s0, KeyQueue(k), t);
    if t in s1.tasks && !s1.tasks[t].universal then
      (s1.(tasks := s1.tasks[t := s1.tasks[t].(keyData := s1.tasks[t].keyData + [k])],
           keys := UpdateKeyStats(UpdateKeyStats(s1.keys, k, IncrementPosted), k, IncrementPending)), empty)
    else (s1, empty)
  }

  /** scheduleTask: decrement the pending statistics of the task's keys and of all tasks, then post it. */
  function Schedule<K>(s: State<K>, t: TaskRef): State<K>
  {
    if t !in s.tasks then s
    else
      var s1 := if s.tasks[t].universal then s.(universal := s.universal.(stats := DecrementPending(s.universal.stats)))
                else s.(keys := DecKeyStats(s.keys, s.tasks[t].keyData));
      s1.(taskStats := DecrementPending(s1.taskStats), posted := s1.posted + [t])
  }

  /** removePending(entry, task) / removeCompleted: nothing unless `t` heads the FIFO; then pop, and return the new head iff its count reaches 0. */
  function RemoveEntry<K>(s: State<K>, q: QueueName<K>, t: TaskRef): (State<K>, Option<TaskRef>)
  {
    var fifo := Queue(s, q);
    if |fifo| == 0 || fifo[0] != t then (s, None)
    else
      var s1 := WithQueue(s, q, fifo[1..]);
      if |fifo| == 1 then (s1, None)
      else
        var n := fifo[1];
        var s2 := s1.(tasks := DecCount(s1.tasks, n));
        (s2, if Count(s2, n) == 0 then Some(n) else None)
  }

  /** One iteration of removePending(task): remove from one FIFO and schedule the released task. */
  function Step<K>(s: State<K>, q: QueueName<K>, t: TaskRef): State<K>
  {
    var (s1, next) := RemoveEntry(s, q, t);
    if next.Some? then Schedule(s1, next.value) else s1
  }

  function RemoveAll<K>(s: State<K>, t: TaskRef, qs: seq<QueueName<K>>): State<K>
    decreases |qs|
  {
    if |qs| == 0 then s else RemoveAll(Step(s, qs[0], t), t, qs[1..])
  }

  /** RemoveAll on a suffix of `qs` takes the first FIFO of that suffix first. */
  lemma RemoveAllSlice<K>(s: State<K>, t: TaskRef, qs: seq<QueueName<K>>, i: nat)
    requires i < |qs|
    ensures RemoveAll(s, t, qs[i..]) == RemoveAll(Step(s, qs[i], t), t, qs[i + 1..])
  {
    assert qs[i..][0] == qs[i] && qs[i..][1..] == qs[i + 1..];
  }

  function KeyNames<K>(ks: seq<K>): (r: seq<QueueName<K>>)
    ensures |r| == |ks| && forall i | 0 <= i < |ks| :: r[i] == KeyQueue(ks[i])
  {
    if |ks| == 0 then [] else [KeyQueue(ks[0])] + KeyNames(ks[1..])
  }

  /** `order` enumerates the key map once: the iteration order of the unordered_map. */
  predicate Enumerates<K>(s: State<K>, order: seq<K>)
  {
    NoDup(order) && (forall k | k in order :: k in s.keys) && (forall k | k in s.keys :: k in order)
  }

  /** The FIFOs a completed task is removed from: all of them for a universal task, its keyData otherwise. */
  function CompletionQueues<K>(s: State<K>, t: TaskRef, order: seq<K>): seq<QueueName<K>>
  {
    if t in s.tasks && s.tasks[t].universal then KeyNames(order) + [UniversalQueue]
    else if t in s.tasks then KeyNames(s.tasks[t].keyData)
    else []
  }

  /** removePending(task) / removeCompletedAndScheduleNext, keys visited in `order`. */
  function Complete<K>(s: State<K>, t: TaskRef, order: seq<K>): State<K>
  {
    var s1 := RemoveAll(s, t, CompletionQueues(s, t, order));
    s1.(done := s1.done + {t})
  }

  /** A new task: no keys yet, pendingKeyCount 0, counted as posted and pending in the task statistics. */
  function NewTask<K>(s: State<K>, t: TaskRef, universal: bool, queueId: int, isHighPriority: bool, opaqueData: nat): State<K>
  {
    s.(tasks := s.tasks[t := Task(universal, [], 0, queueId, isHighPriority, opaqueData)],
       taskStats := IncrementPending(IncrementPosted(s.taskStats)))
  }

  /** The loop of addPendingTask calls over `ks`; the flag is false as soon as one call returned false. A key the task already joined is skipped. */
  function AddKeys<K>(s: State<K>, t: TaskRef, ks: seq<K>): (State<K>, bool)
    decreases |ks|
  {
    if |ks| == 0 then (s, true)
    else if t in s.tasks && ks[0] in s.tasks[t].keyData then AddKeys(s, t, ks[1..])
    else
      var (s1, e1) := AddKeyed(s, ks[0], t);
      var (s2, e2) := AddKeys(s1, t, ks[1..]);
      (s2, e1 && e2)
  }

  /** enqueueSingle / enqueueMultiple after the guards: join the FIFO of every key, post at once if no key had pending tasks. */
  function Enqueue<K>(s: State<K>, t: TaskRef, ks: seq<K>, queueId: int, isHighPriority: bool, opaqueData: nat): State<K>
  {
    var s1 := NewTask(s, t, false, queueId, isHighPriority, opaqueData);
    var (s2, canSchedule) := AddKeys(s1, t, ks);
    if canSchedule then Schedule(s2, t) else s2
  }

  /** enqueueAllImpl after the guards: join the universal FIFO and every existing key FIFO (visited in `order`). */
  function EnqueueAll<K>(s: State<K>, t: TaskRef, order: seq<K>, queueId: int, isHighPriority: bool, opaqueData: nat): State<K>
  {
    var s1 := NewTask(s, t, true, queueId, isHighPriority, opaqueData);
    var (s2, e0) := AddUniversal(s1, t);
    var (s3, e1) := AddKeys(s2, t, order);
    if e0 && e1 then Schedule(s3, t) else s3
  }

  /** trimSequenceKeys: drop every key whose FIFO is empty. */
  function Trim<K>(s: State<K>): State<K>
  {
    s.(keys := map k | k in s.keys && |s.keys[k].tasks| > 0 :: s.keys[k])
  }

  // ------------------------------------------------------------------
  // Effects of the primitive steps
  // ------------------------------------------------------------------

  /** Replacing one FIFO's contents changes the blocking sets only at that FIFO. */
  lemma BlockingAfter<K>(s: State<K>, s': State<K>, q: QueueName<K>, u: TaskRef)
    requires q in Names(s') && Names(s') - {q} == Names(s) - {q}
    requires forall r | r != q :: Queue(s', r) == Queue(s, r)
    ensures Blocking(s', u) == (Blocking(s, u) - {q}) + (if Waiting(Queue(s', q), u) then {q} else {})
  {
    var rhs := (Blocking(s, u) - {q}) + (if Waiting(Queue(s', q), u) then {q} else {});
    forall r | r in Blocking(s', u) ensures r in rhs {
      if r != q { assert Queue(s', r) == Queue(s, r); }
    }
    forall r | r in rhs ensures r in Blocking(s', u) {
      if r != q { assert Queue(s', r) == Queue(s, r); }
    }
  }

  lemma WithQueueEffect<K>(s: State<K>, q: QueueName<K>, ts: seq<TaskRef>)
    requires q in Names(s)
    ensures var s' := WithQueue(s, q, ts);
      Names(s') == Names(s) && s'.keys.Keys == s.keys.Keys && Queue(s', q) == ts &&
      (forall r | r != q :: Queue(s', r) == Queue(s, r)) &&
      s'.tasks == s.tasks && s'.posted == s.posted && s'.done == s.done && s'.taskStats == s.taskStats
  {
    var s' := WithQueue(s, q, ts);
    assert s'.keys.Keys == s.keys.Keys;
    forall r | r != q ensures Queue(s', r) == Queue(s, r) {}
  }

  /** Queue contents are all that Blocking looks at. */
  ghost predicate SameQueues<K>(s: State<K>, s': State<K>)
  {
    s'.keys.Keys == s.keys.Keys && s'.universal.tasks == s.universal.tasks &&
    (forall k | k in s.keys :: s'.keys[k].tasks == s.keys[k].tasks)
  }

  lemma SameQueuesEffect<K>(s: State<K>, s': State<K>)
    requires SameQueues(s, s')
    ensures Names(s') == Names(s)
    ensures forall q :: Queue(s', q) == Queue(s, q)
    ensures forall u :: Blocking(s', u) == Blocking(s, u)
  {
    forall q ensures Queue(s', q) == Queue(s, q) {}
    forall u ensures Blocking(s', u) == Blocking(s, u) {
      assert Names(s') == Names(s);
    }
  }

  lemma UpdateKeyStatsQueues<K>(keys: map<K, KeyData>, k: K, f: Counters -> Counters)
    ensures var r := UpdateKeyStats(keys, k, f);
      r.Keys == keys.Keys && forall j | j in keys :: r[j].tasks == keys[j].tasks
  {
  }

  lemma {:induction false} DecKeyStatsQueues<K>(keys: map<K, KeyData>, ks: seq<K>)
    ensures var r := DecKeyStats(keys, ks);
      r.Keys == keys.Keys && forall j | j in keys :: r[j].tasks == keys[j].tasks
    decreases |ks|
  {
    if |ks| > 0 {
      UpdateKeyStatsQueues(keys, ks[0], DecrementPending);
      DecKeyStatsQueues(UpdateKeyStats(keys, ks[0], DecrementPending), ks[1..]);
    }
  }

  /** Scheduling leaves every FIFO and count alone and appends the task to `posted`. */
  lemma ScheduleEffect<K>(s: State<K>, t: TaskRef)
    requires t in s.tasks
    ensures var s' := Schedule(s, t);
      SameQueues(s, s') && s'.tasks == s.tasks && s'.done == s.done && s'.posted == s.posted + [t]
  {
    if !s.tasks[t].universal {
      DecKeyStatsQueues(s.keys, s.tasks[t].keyData);
    }
  }

  /** push_back: `t` joins the end of `q`; its count rises, and it blocks in `q`, exactly when `q` was not empty. */
  lemma PushEffect<K>(s: State<K>, q: QueueName<K>, t: TaskRef)
    requires q in Names(s) && t !in Queue(s, q) && t in s.tasks
    ensures var (s', empty) := Push(s, q, t);
      (empty <==> |Queue(s, q)| == 0) &&
      Names(s') == Names(s) && s'.keys.Keys == s.keys.Keys && Queue(s', q) == Queue(s, q) + [t] &&
      (forall r | r != q :: Queue(s', r) == Queue(s, r)) &&
      (forall u | u != t :: Blocking(s', u) == Blocking(s, u)) &&
      Blocking(s', t) == (if empty then Blocking(s, t) else Blocking(s, t) + {q}) &&
      s'.tasks.Keys == s.tasks.Keys &&
      (forall u | u in s.tasks && u != t :: s'.tasks[u] == s.tasks[u]) &&
      s'.tasks[t] == s.tasks[t].(pendingKeyCount := s.tasks[t].pendingKeyCount + if empty then 0 else 1) &&
      s'.posted == s.posted && s'.done == s.done && s'.taskStats == s.taskStats
  {
    var (s', empty) := Push(s, q, t);
    var s1 := WithQueue(s, q, Queue(s, q) + [t]);
    WithQueueEffect(s, q, Queue(s, q) + [t]);
    assert Queue(s', q) == Queue(s1, q);
    forall r | r != q ensures Queue(s', r) == Queue(s, r) {
      assert Queue(s', r) == Queue(s1, r);
    }
    forall u ensures Blocking(s', u) == (Blocking(s, u) - {q}) + (if Waiting(Queue(s', q), u) then {q} else {}) {
      BlockingAfter(s, s', q, u);
    }
    assert !Waiting(Queue(s, q), t);
    forall u | u != t ensures Blocking(s', u) == Blocking(s, u) {
      assert Waiting(Queue(s', q), u) <==> Waiting(Queue(s, q), u);
      assert q in Blocking(s, u) <==> Waiting(Queue(s, q), u);
    }
  }

  /** Seeding a FIFO adds one to the count of every seeded task that is not at its head. */
  lemma {:induction false} SeededEffect<K>(m: map<TaskRef, Task<K>>, us: seq<TaskRef>)
    requires NoDup(us)
    ensures Seeded(m, us).Keys == m.Keys
    ensures forall u | u in m ::
              Seeded(m, us)[u] == m[u].(pendingKeyCount := m[u].pendingKeyCount + if Waiting(us, u) then 1 else 0)
    decreases |us|
  {
    if |us| > 1 {
      var front, last := us[..|us| - 1], us[|us| - 1];
      assert NoDup(front) by {
        forall i, j | 0 <= i < j < |front| ensures front[i] != front[j] { assert front[i] == us[i] && front[j] == us[j]; }
      }
      SeededEffect(m, front);
      assert last !in front by {
        forall i | 0 <= i < |front| ensures front[i] != last { assert front[i] == us[i]; }
      }
      forall u | u in m ensures Waiting(us, u) <==> Waiting(front, u) || u == last {
        assert us == front + [last];
        assert us[0] == front[0] && us[0] != last;
      }
    } else {
      forall u | u in m ensures !Waiting(us, u) {}
    }
  }

  /** A new key FIFO is a copy of the universal FIFO; each universal task behind the head now also blocks there. */
  lemma CreateKeyEffect<K>(s: State<K>, k: K)
    requires k !in s.keys && NoDup(s.universal.tasks)
    ensures var s' := CreateKey(s, k);
      Names(s') == Names(s) + {KeyQueue(k)} && s'.keys.Keys == s.keys.Keys + {k} &&
      Queue(s', KeyQueue(k)) == s.universal.tasks &&
      (forall r | r != KeyQueue(k) :: Queue(s', r) == Queue(s, r)) &&
      (forall u :: Blocking(s', u) == Blocking(s, u) + if Waiting(s.universal.tasks, u) then {KeyQueue(k)} else {}) &&
      s'.tasks.Keys == s.tasks.Keys &&
      (forall u | u in s.tasks :: s'.tasks[u] ==
        s.tasks[u].(pendingKeyCount := s.tasks[u].pendingKeyCount + if Waiting(s.universal.tasks, u) then 1 else 0)) &&
      s'.posted == s.posted && s'.done == s.done && s'.taskStats == s.taskStats && s'.universal == s.universal
  {
    var s' := CreateKey(s, k);
    var q := KeyQueue(k);
    SeededEffect(s.tasks, s.universal.tasks);
    assert Names(s') == Names(s) + {q} by {
      assert s'.keys.Keys == s.keys.Keys + {k};
    }
    assert q !in Names(s);
    forall r | r != q ensures Queue(s', r) == Queue(s, r) {}
    forall u ensures Blocking(s', u) == Blocking(s, u) + if Waiting(s.universal.tasks, u) then {q} else {} {
      BlockingAfter(s, s', q, u);
      assert q !in Blocking(s, u);
    }
  }

  /** Popping the head `t` of `q`: only the new head's count and blocking set change. */
  lemma RemoveEntryEffect<K>(s: State<K>, q: QueueName<K>, t: TaskRef)
    requires WellFormed(s) && q in Names(s)
    ensures var (s', next) := RemoveEntry(s, q, t); var fifo := Queue(s, q);
      if |fifo| == 0 || fifo[0] != t then s' == s && next == None
      else
        Names(s') == Names(s) && s'.keys.Keys == s.keys.Keys && Queue(s', q) == fifo[1..] &&
        (forall r | r != q :: Queue(s', r) == Queue(s, r)) &&
        s'.posted == s.posted && s'.done == s.done && s'.taskStats == s.taskStats &&
        s'.tasks.Keys == s.tasks.Keys &&
        (forall u | u in s.tasks && (|fifo| == 1 || u != fifo[1]) :: s'.tasks[u] == s.tasks[u]) &&
        (forall u :: Blocking(s', u) == if |fifo| > 1 && u == fifo[1] then Blocking(s, u) - {q} else Blocking(s, u)) &&
        (|fifo| > 1 ==> fifo[1] in s.tasks && s'.tasks[fifo[1]] == s.tasks[fifo[1]].(pendingKeyCount :=
            if s.tasks[fifo[1]].pendingKeyCount == 0 then UINT_MAX else s.tasks[fifo[1]].pendingKeyCount - 1)) &&
        next == (if |fifo| > 1 && Count(s', fifo[1]) == 0 then Some(fifo[1]) else None)
  {
    var fifo := Queue(s, q);
    if |fifo| > 0 && fifo[0] == t {
      var (s', next) := RemoveEntry(s, q, t);
      var s1 := WithQueue(s, q, fifo[1..]);
      WithQueueEffect(s, q, fifo[1..]);
      assert Queue(s', q) == Queue(s1, q);
      forall r | r != q ensures Queue(s', r) == Queue(s, r) {
        assert Queue(s', r) == Queue(s1, r);
      }
      forall u ensures Blocking(s', u) == if |fifo| > 1 && u == fifo[1] then Blocking(s, u) - {q} else Blocking(s, u) {
        BlockingAfter(s, s', q, u);
        if |fifo| > 1 && u == fifo[1] {
          assert !Waiting(fifo[1..], u);
        } else if u == t {
          assert t !in fifo[1..] by {
            forall i | 1 <= i < |fifo| ensures fifo[i] != t { assert fifo[0] == t; }
          }
        } else {
          assert Waiting(fifo[1..], u) <==> Waiting(fifo, u);
          assert q in Blocking(s, u) <==> Waiting(fifo, u);
        }
      }
    }
  }

  // ------------------------------------------------------------------
  // Each primitive step keeps the invariant
  // ------------------------------------------------------------------

  lemma NoDupAppend<T>(xs: seq<T>, x: T)
    requires NoDup(xs) && x !in xs
    ensures NoDup(xs + [x])
  {
    var ys := xs + [x];
    forall i, j | 0 <= i < j < |ys| ensures ys[i] != ys[j] {
      if j < |xs| { assert ys[i] == xs[i] && ys[j] == xs[j]; } else { assert ys[i] == xs[i]; }
    }
  }

  /** Placement only looks at which FIFOs hold the task. */
  lemma PlacementFollowsMembership<K>(s: State<K>, s': State<K>, u: TaskRef)
    requires s'.keys.Keys == s.keys.Keys && u in s.tasks && u in s'.tasks
    requires s'.tasks[u].universal == s.tasks[u].universal && s'.tasks[u].keyData == s.tasks[u].keyData
    requires forall r :: u in Queue(s', r) <==> u in Queue(s, r)
    ensures UniversalPlaced(s', u) <==> UniversalPlaced(s, u)
    ensures KeyedPlaced(s', u) <==> KeyedPlaced(s, u)
  {
    assert Names(s') == Names(s);
  }

  /** push_back keeps the invariant for every task but the one being enqueued. */
  lemma PushKeeps<K>(s: State<K>, q: QueueName<K>, t: TaskRef, ps: set<TaskRef>, ms: set<TaskRef>)
    requires Partial(s, ps, ms) && t in ps && t in ms && t in s.tasks && t !in s.done
    requires q in Names(s) && t !in Queue(s, q)
    ensures Partial(Push(s, q, t).0, ps, ms)
  {
    var s' := Push(s, q, t).0;
    assert WellFormed(s') by { PushKeepsWellFormed(s, q, t); }
    assert CountsExact(s') by { PushKeepsCounts(s, q, t); }
    assert Members(s', ms) by { PushKeepsMembers(s, q, t, ms); }
    assert PostedIffReady(s', ps) by { PushKeepsPosted(s, q, t, ps); }
    assert DoneGone(s') by { PushKeepsDone(s, q, t); }
  }

  lemma PushKeepsPosted<K>(s: State<K>, q: QueueName<K>, t: TaskRef, ps: set<TaskRef>)
    requires PostedIffReady(s, ps) && t in ps && t in s.tasks && q in Names(s) && t !in Queue(s, q)
    ensures PostedIffReady(Push(s, q, t).0, ps)
  {
    PushEffect(s, q, t);
  }

  lemma PushKeepsDone<K>(s: State<K>, q: QueueName<K>, t: TaskRef)
    requires DoneGone(s) && t in s.tasks && t !in s.done && q in Names(s) && t !in Queue(s, q)
    ensures DoneGone(Push(s, q, t).0)
  {
    PushEffect(s, q, t);
    var s' := Push(s, q, t).0;
    forall u, r | u in s'.done && r in Names(s') ensures u !in Queue(s', r) {
      assert u !in Queue(s, r);
    }
  }

  lemma PushKeepsWellFormed<K>(s: State<K>, q: QueueName<K>, t: TaskRef)
    requires WellFormed(s) && t in s.tasks && q in Names(s) && t !in Queue(s, q)
    ensures WellFormed(Push(s, q, t).0)
  {
    var s' := Push(s, q, t).0;
    PushEffect(s, q, t);
    forall r | r in Names(s') ensures NoDup(Queue(s', r)) {
      if r == q { NoDupAppend(Queue(s, q), t); }
    }
  }

  lemma PushKeepsCounts<K>(s: State<K>, q: QueueName<K>, t: TaskRef)
    requires CountsExact(s) && t in s.tasks && q in Names(s) && t !in Queue(s, q)
    ensures CountsExact(Push(s, q, t).0)
  {
    var (s', empty) := Push(s, q, t);
    PushEffect(s, q, t);
    assert q !in Blocking(s, t);
  }

  lemma PushKeepsMembers<K>(s: State<K>, q: QueueName<K>, t: TaskRef, ms: set<TaskRef>)
    requires Members(s, ms) && t in ms && t in s.tasks && q in Names(s) && t !in Queue(s, q)
    ensures Members(Push(s, q, t).0, ms)
  {
    var s' := Push(s, q, t).0;
    PushEffect(s, q, t);
    forall u | u in s'.tasks && u !in ms && u !in s'.done
      ensures if s'.tasks[u].universal then UniversalPlaced(s', u) else KeyedPlaced(s', u)
    {
      forall r ensures u in Queue(s', r) <==> u in Queue(s, r) {}
      PlacementFollowsMembership(s, s', u);
    }
  }

  /** Creating and seeding a key keeps the invariant. */
  lemma CreateKeyKeeps<K>(s: State<K>, k: K, ps: set<TaskRef>, ms: set<TaskRef>)
    requires Partial(s, ps, ms) && k !in s.keys
    ensures Partial(CreateKey(s, k), ps, ms)
  {
    assert NoDup(s.universal.tasks) by { assert UniversalQueue in Names(s); }
    CreateKeyKeepsWellFormed(s, k);
    CreateKeyKeepsCounts(s, k);
    CreateKeyKeepsPosted(s, k, ps);
    CreateKeyKeepsMembers(s, k, ms);
    CreateKeyKeepsDone(s, k);
  }

  lemma CreateKeyKeepsWellFormed<K>(s: State<K>, k: K)
    requires WellFormed(s) && k !in s.keys
    ensures WellFormed(CreateKey(s, k))
  {
    assert NoDup(s.universal.tasks) by { assert UniversalQueue in Names(s); }
    CreateKeyEffect(s, k);
    var s' := CreateKey(s, k);
    forall r, u | r in Names(s') && u in Queue(s', r) ensures u in s'.tasks {
      if r == KeyQueue(k) { assert u in Queue(s, UniversalQueue); } else { assert u in Queue(s, r); }
    }
  }

  lemma CreateKeyKeepsCounts<K>(s: State<K>, k: K)
    requires CountsExact(s) && k !in s.keys && NoDup(s.universal.tasks)
    ensures CountsExact(CreateKey(s, k))
  {
    var s' := CreateKey(s, k);
    SeededEffect(s.tasks, s.universal.tasks);
    forall u | u in s'.tasks ensures s'.tasks[u].pendingKeyCount == |Blocking(s', u)| {
      CreateKeyCountOf(s, k, u);
    }
  }

  lemma CreateKeyCountOf<K>(s: State<K>, k: K, u: TaskRef)
    requires k !in s.keys && NoDup(s.universal.tasks) && u in s.tasks
    requires s.tasks[u].pendingKeyCount == |Blocking(s, u)|
    ensures u in CreateKey(s, k).tasks && CreateKey(s, k).tasks[u].pendingKeyCount == |Blocking(CreateKey(s, k), u)|
  {
    var s' := CreateKey(s, k);
    CreateKeyEffect(s, k);
    var b := Blocking(s, u);
    if Waiting(s.universal.tasks, u) {
      assert KeyQueue(k) !in b;
      assert |b + {KeyQueue(k)}| == |b| + 1;
    }
  }

  lemma CreateKeyKeepsPosted<K>(s: State<K>, k: K, ps: set<TaskRef>)
    requires CountsExact(s) && PostedIffReady(s, ps) && k !in s.keys && NoDup(s.universal.tasks)
    ensures PostedIffReady(CreateKey(s, k), ps)
  {
    var s' := CreateKey(s, k);
    CreateKeyEffect(s, k);
    forall u | u in s'.tasks && u !in ps ensures u in s'.posted <==> s'.tasks[u].pendingKeyCount == 0 {
      if Waiting(s.universal.tasks, u) {
        assert UniversalQueue in Blocking(s, u);
      }
    }
  }

  lemma CreateKeyKeepsDone<K>(s: State<K>, k: K)
    requires DoneGone(s) && k !in s.keys && NoDup(s.universal.tasks)
    ensures DoneGone(CreateKey(s, k))
  {
    var s' := CreateKey(s, k);
    CreateKeyEffect(s, k);
    forall u, r | u in s'.done && r in Names(s') ensures u !in Queue(s', r) {
      assert UniversalQueue in Names(s) && u !in Queue(s, UniversalQueue);
      if r != KeyQueue(k) { assert r in Names(s); }
    }
  }

  lemma CreateKeyKeepsMembers<K>(s: State<K>, k: K, ms: set<TaskRef>)
    requires Members(s, ms) && k !in s.keys && NoDup(s.universal.tasks)
    ensures Members(CreateKey(s, k), ms)
  {
    var s' := CreateKey(s, k);
    var q := KeyQueue(k);
    CreateKeyEffect(s, k);
    forall u | u in s'.tasks && u !in ms && u !in s'.done
      ensures if s'.tasks[u].universal then UniversalPlaced(s', u) else KeyedPlaced(s', u)
    {
      if s.tasks[u].universal {
        assert UniversalPlaced(s, u);
        assert UniversalQueue in Names(s);
        assert u in Queue(s', q);
      } else {
        assert KeyedPlaced(s, u);
        assert u !in Queue(s', q);
        assert k !in s.tasks[u].keyData;
      }
    }
  }

  /** Posting a ready task that was never posted re-establishes the posting rule for it. */
  lemma ScheduleKeeps<K>(s: State<K>, n: TaskRef, ps: set<TaskRef>, ms: set<TaskRef>)
    requires Partial(s, ps, ms) && n in ps && n in s.tasks && n !in s.posted && s.tasks[n].pendingKeyCount == 0
    ensures Partial(Schedule(s, n), ps - {n}, ms)
  {
    var s' := Schedule(s, n);
    ScheduleEffect(s, n);
    SameQueuesEffect(s, s');
    NoDupAppend(s.posted, n);
    forall u | u in s'.tasks && u !in s'.done && u !in ms
      ensures if s'.tasks[u].universal then UniversalPlaced(s', u) else KeyedPlaced(s', u)
    {
      PlacementFollowsMembership(s, s', u);
    }
  }

  /** Popping a completed head keeps the invariant, except that a released task still has to be posted. */
  lemma RemoveEntryKeeps<K>(s: State<K>, q: QueueName<K>, t: TaskRef, ms: set<TaskRef>)
    requires Partial(s, {}, ms) && t in ms && q in Names(s)
    ensures var (s', next) := RemoveEntry(s, q, t);
      WellFormed(s') && CountsExact(s') && Members(s', ms) && DoneGone(s') &&
      (next.None? ==> PostedIffReady(s', {})) &&
      (next.Some? ==> next.value in s'.tasks && s'.tasks[next.value].pendingKeyCount == 0 &&
                      next.value !in s'.posted && PostedIffReady(s', {next.value}))
  {
    var fifo := Queue(s, q);
    RemoveEntryEffect(s, q, t);
    if |fifo| > 0 && fifo[0] == t {
      RemoveEntryKeepsWellFormed(s, q, t);
      RemoveEntryKeepsCounts(s, q, t);
      RemoveEntryKeepsMembers(s, q, t, ms);
      RemoveEntryKeepsDone(s, q, t);
      RemoveEntryKeepsPosted(s, q, t);
    }
  }

  lemma RemoveEntryKeepsWellFormed<K>(s: State<K>, q: QueueName<K>, t: TaskRef)
    requires WellFormed(s) && q in Names(s) && |Queue(s, q)| > 0 && Queue(s, q)[0] == t
    ensures WellFormed(RemoveEntry(s, q, t).0)
  {
    var s' := RemoveEntry(s, q, t).0;
    var fifo := Queue(s, q);
    RemoveEntryEffect(s, q, t);
    forall r | r in Names(s') ensures NoDup(Queue(s', r)) {
      if r == q {
        forall i, j | 0 <= i < j < |fifo| - 1 ensures fifo[1..][i] != fifo[1..][j] {
          assert fifo[1..][i] == fifo[i + 1] && fifo[1..][j] == fifo[j + 1];
        }
      }
    }
    forall r, u | r in Names(s') && u in Queue(s', r) ensures u in s'.tasks {
      if r == q { assert u in fifo; } else { assert u in Queue(s, r); }
    }
  }

  lemma RemoveEntryKeepsCounts<K>(s: State<K>, q: QueueName<K>, t: TaskRef)
    requires WellFormed(s) && CountsExact(s) && q in Names(s) && |Queue(s, q)| > 0 && Queue(s, q)[0] == t
    ensures CountsExact(RemoveEntry(s, q, t).0)
  {
    var s' := RemoveEntry(s, q, t).0;
    RemoveEntryEffect(s, q, t);
    forall u | u in s'.tasks ensures s'.tasks[u].pendingKeyCount == |Blocking(s', u)| {
      RemoveEntryCountOf(s, q, t, u);
    }
  }

  lemma RemoveEntryCountOf<K>(s: State<K>, q: QueueName<K>, t: TaskRef, u: TaskRef)
    requires WellFormed(s) && q in Names(s) && |Queue(s, q)| > 0 && Queue(s, q)[0] == t
    requires u in s.tasks && s.tasks[u].pendingKeyCount == |Blocking(s, u)|
    ensures u in RemoveEntry(s, q, t).0.tasks && RemoveEntry(s, q, t).0.tasks[u].pendingKeyCount == |Blocking(RemoveEntry(s, q, t).0, u)|
  {
    var fifo := Queue(s, q);
    RemoveEntryEffect(s, q, t);
    if |fifo| > 1 && u == fifo[1] {
      assert q in Blocking(s, u);
    }
  }

  lemma RemoveEntryKeepsPosted<K>(s: State<K>, q: QueueName<K>, t: TaskRef)
    requires WellFormed(s) && CountsExact(s) && PostedIffReady(s, {}) && q in Names(s) && |Queue(s, q)| > 0 && Queue(s, q)[0] == t
    ensures var (s', next) := RemoveEntry(s, q, t);
      (next.None? ==> PostedIffReady(s', {})) &&
      (next.Some? ==> next.value in s'.tasks && s'.tasks[next.value].pendingKeyCount == 0 &&
                      next.value !in s'.posted && PostedIffReady(s', {next.value}))
  {
    var (s', next) := RemoveEntry(s, q, t);
    var fifo := Queue(s, q);
    RemoveEntryEffect(s, q, t);
    if |fifo| > 1 {
      var n := fifo[1];
      assert q in Blocking(s, n);
      assert s.tasks[n].pendingKeyCount >= 1;
      assert n !in s.posted;
    }
  }

  lemma RemoveEntryKeepsMembers<K>(s: State<K>, q: QueueName<K>, t: TaskRef, ms: set<TaskRef>)
    requires WellFormed(s) && Members(s, ms) && t in ms && q in Names(s) && |Queue(s, q)| > 0 && Queue(s, q)[0] == t
    ensures Members(RemoveEntry(s, q, t).0, ms)
  {
    var s' := RemoveEntry(s, q, t).0;
    var fifo := Queue(s, q);
    RemoveEntryEffect(s, q, t);
    forall u | u in s'.tasks && u !in ms && u !in s'.done
      ensures if s'.tasks[u].universal then UniversalPlaced(s', u) else KeyedPlaced(s', u)
    {
      forall r ensures u in Queue(s', r) <==> u in Queue(s, r) {
        if r == q {
          assert fifo == [t] + fifo[1..];
        }
      }
      PlacementFollowsMembership(s, s', u);
    }
  }

  lemma RemoveEntryKeepsDone<K>(s: State<K>, q: QueueName<K>, t: TaskRef)
    requires WellFormed(s) && DoneGone(s) && q in Names(s) && |Queue(s, q)| > 0 && Queue(s, q)[0] == t
    ensures DoneGone(RemoveEntry(s, q, t).0)
  {
    var s' := RemoveEntry(s, q, t).0;
    var fifo := Queue(s, q);
    RemoveEntryEffect(s, q, t);
    forall u, r | u in s'.done && r in Names(s') ensures u !in Queue(s', r) {
      assert u !in Queue(s, r);
      if r == q { assert fifo == [t] + fifo[1..]; }
    }
  }

  /** One removal step, including the posting of the released task, keeps the invariant. */
  lemma StepKeeps<K>(s: State<K>, q: QueueName<K>, t: TaskRef, ms: set<TaskRef>)
    requires Partial(s, {}, ms) && t in ms && q in Names(s)
    ensures Partial(Step(s, q, t), {}, ms)
  {
    var (s1, next) := RemoveEntry(s, q, t);
    RemoveEntryKeeps(s, q, t, ms);
    if next.Some? {
      ScheduleKeeps(s1, next.value, {next.value}, ms);
    }
  }

  // ------------------------------------------------------------------
  // Completion: removePending(task) / removeCompletedAndScheduleNext
  // ------------------------------------------------------------------

  /** In the middle of a completion: `t` ran and can only still be found, at the head, in the FIFOs of `rest`. */
  ghost predicate Completing<K>(s: State<K>, t: TaskRef, rest: seq<QueueName<K>>)
  {
    Partial(s, {}, {t}) && t in s.tasks && t in s.posted && t !in s.done && s.tasks[t].pendingKeyCount == 0 &&
    forall q | q in Names(s) && t in Queue(s, q) :: q in rest
  }

  /** A task with count 0 heads every FIFO that holds it. */
  lemma ReadyIsHead<K>(s: State<K>, t: TaskRef, q: QueueName<K>)
    requires CountsExact(s) && t in s.tasks && s.tasks[t].pendingKeyCount == 0
    requires q in Names(s) && t in Queue(s, q)
    ensures Queue(s, q)[0] == t
  {
    assert Waiting(Queue(s, q), t) ==> q in Blocking(s, t);
  }

  /** What one removal step does to the completing task itself. */
  lemma StepOnCompleted<K>(s: State<K>, q: QueueName<K>, t: TaskRef)
    requires WellFormed(s) && CountsExact(s) && q in Names(s)
    requires t in s.tasks && t in s.posted && t !in s.done && s.tasks[t].pendingKeyCount == 0
    ensures var s' := Step(s, q, t);
      Names(s') == Names(s) && t !in Queue(s', q) && (forall r | r != q :: Queue(s', r) == Queue(s, r)) &&
      t in s'.tasks && t in s'.posted && t !in s'.done && s'.tasks[t].pendingKeyCount == 0
  {
    var fifo := Queue(s, q);
    var (s1, next) := RemoveEntry(s, q, t);
    RemoveEntryEffect(s, q, t);
    var s' := Step(s, q, t);
    if next.Some? { ScheduleEffect(s1, next.value); SameQueuesEffect(s1, s'); }
    if t in fifo {
      ReadyIsHead(s, t, q);
      assert t !in fifo[1..] by {
        forall i | 1 <= i < |fifo| ensures fifo[i] != t { assert fifo[0] == t; }
      }
    }
  }

  lemma StepCompletes<K>(s: State<K>, q: QueueName<K>, t: TaskRef, rest: seq<QueueName<K>>)
    requires Completing(s, t, [q] + rest)
    ensures Completing(Step(s, q, t), t, rest)
  {
    if q !in Names(s) {
      assert Queue(s, q) == [];
      assert Step(s, q, t) == s;
      forall r | r in Names(s) && t in Queue(s, r) ensures r in rest {
        assert r in [q] + rest && r != q;
      }
    } else {
      StepKeeps(s, q, t, {t});
      StepOnCompleted(s, q, t);
      var s' := Step(s, q, t);
      forall r | r in Names(s') && t in Queue(s', r) ensures r in rest {
        assert r != q && t in Queue(s, r);
        assert r in [q] + rest;
      }
    }
  }

  lemma {:induction false} RemoveAllCompletes<K>(s: State<K>, t: TaskRef, qs: seq<QueueName<K>>)
    requires Completing(s, t, qs)
    ensures Completing(RemoveAll(s, t, qs), t, [])
    decreases |qs|
  {
    if |qs| > 0 {
      assert qs == [qs[0]] + qs[1..];
      StepCompletes(s, qs[0], t, qs[1..]);
      RemoveAllCompletes(Step(s, qs[0], t), t, qs[1..]);
    }
  }

  /** The completion of a running (posted, not yet completed) task keeps the invariant and leaves it in no FIFO. */
  lemma CompleteKeeps<K>(s: State<K>, t: TaskRef, order: seq<K>)
    requires Inv(s) && t in s.posted && t !in s.done && Enumerates(s, order)
    ensures Inv(Complete(s, t, order))
    ensures forall q | q in Names(Complete(s, t, order)) :: t !in Queue(Complete(s, t, order), q)
  {
    var qs := CompletionQueues(s, t, order);
    CompletionStarts(s, t, order);
    RemoveAllCompletes(s, t, qs);
    CompletionEnds(RemoveAll(s, t, qs), t);
  }

  lemma CompletionStarts<K>(s: State<K>, t: TaskRef, order: seq<K>)
    requires Inv(s) && t in s.posted && t !in s.done && Enumerates(s, order)
    ensures Completing(s, t, CompletionQueues(s, t, order))
  {
    var qs := CompletionQueues(s, t, order);
    assert t in s.tasks && s.tasks[t].pendingKeyCount == 0;
    forall q | q in Names(s) && t in Queue(s, q) ensures q in qs {
      if s.tasks[t].universal {
        if q.KeyQueue? {
          var i :| 0 <= i < |order| && order[i] == q.key;
          assert KeyNames(order)[i] == q;
        } else {
          assert qs[|qs| - 1] == q;
        }
      } else {
        assert KeyedPlaced(s, t);
        assert q.KeyQueue?;
        var ks := s.tasks[t].keyData;
        var i :| 0 <= i < |ks| && ks[i] == q.key;
        assert KeyNames(ks)[i] == q;
      }
    }
  }

  lemma CompletionEnds<K>(s: State<K>, t: TaskRef)
    requires Completing(s, t, [])
    ensures var s' := s.(done := s.done + {t});
      Inv(s') && forall q | q in Names(s') :: t !in Queue(s', q)
  {
    var s' := s.(done := s.done + {t});
    SameQueuesEffect(s, s');
    forall u | u in s'.tasks && u !in s'.done
      ensures if s'.tasks[u].universal then UniversalPlaced(s', u) else KeyedPlaced(s', u)
    {
      PlacementFollowsMembership(s, s', u);
    }
  }

  // ------------------------------------------------------------------
  // Enqueueing keeps the invariant
  // ------------------------------------------------------------------

  /** Changing statistics, or the placement data of tasks in `ms`, keeps the invariant. */
  lemma ReshapeKeeps<K>(s: State<K>, s': State<K>, ps: set<TaskRef>, ms: set<TaskRef>)
    requires Partial(s, ps, ms) && SameQueues(s, s') && s'.tasks.Keys == s.tasks.Keys
    requires forall u | u in s.tasks :: s'.tasks[u].pendingKeyCount == s.tasks[u].pendingKeyCount
    requires forall u | u in s.tasks && u !in ms :: s'.tasks[u].universal == s.tasks[u].universal && s'.tasks[u].keyData == s.tasks[u].keyData
    requires s'.posted == s.posted && s'.done == s.done
    ensures Partial(s', ps, ms)
  {
    SameQueuesEffect(s, s');
    forall u | u in s'.tasks && u !in ms && u !in s'.done
      ensures if s'.tasks[u].universal then UniversalPlaced(s', u) else KeyedPlaced(s', u)
    {
      PlacementFollowsMembership(s, s', u);
    }
  }

  /** A fresh task sits in no FIFO. */
  lemma NewTaskKeeps<K>(s: State<K>, t: TaskRef, universal: bool, queueId: int, isHighPriority: bool, opaqueData: nat)
    requires Inv(s) && t !in s.tasks
    ensures var s' := NewTask(s, t, universal, queueId, isHighPriority, opaqueData);
      Partial(s', {t}, {t}) && t in s'.tasks && t !in s'.posted && t !in s'.done &&
      s'.tasks[t].pendingKeyCount == 0 && s'.tasks[t].universal == universal && s'.tasks[t].keyData == [] &&
      (forall q | q in Names(s') :: t !in Queue(s', q)) && s'.keys.Keys == s.keys.Keys
  {
    var s' := NewTask(s, t, universal, queueId, isHighPriority, opaqueData);
    assert SameQueues(s, s');
    SameQueuesEffect(s, s');
    forall q | q in Names(s) ensures t !in Queue(s, q) {}
    assert Blocking(s', t) == {};
    forall u | u in s'.tasks && u !in {t} && u !in s'.done
      ensures if s'.tasks[u].universal then UniversalPlaced(s', u) else KeyedPlaced(s', u)
    {
      PlacementFollowsMembership(s, s', u);
    }
  }

  /** Once the enqueued task is placed and posted exactly when ready, the full invariant holds again. */
  lemma Unskip<K>(s: State<K>, t: TaskRef)
    requires Partial(s, {t}, {t}) && t in s.tasks && t !in s.done
    requires if s.tasks[t].universal then UniversalPlaced(s, t) else KeyedPlaced(s, t)
    requires t in s.posted <==> s.tasks[t].pendingKeyCount == 0
    ensures Inv(s)
  {
  }

  /** Make sure the key exists (creating and seeding it), without touching the keyed task `t`. */
  lemma PrepareKeyKeeps<K>(s: State<K>, k: K, t: TaskRef)
    requires Partial(s, {t}, {t}) && t in s.tasks && !s.tasks[t].universal && t !in s.done
    requires KeyedPlaced(s, t) && k !in s.tasks[t].keyData
    ensures var s0 := if k in s.keys then s else CreateKey(s, k);
      Partial(s0, {t}, {t}) && t in s0.tasks && s0.tasks[t] == s.tasks[t] && KeyedPlaced(s0, t) &&
      t !in Queue(s0, KeyQueue(k)) && s0.posted == s.posted && s0.done == s.done &&
      s0.keys.Keys == s.keys.Keys + {k} &&
      (|Queue(s0, KeyQueue(k))| == 0 <==> if k in s.keys then |Queue(s, KeyQueue(k))| == 0 else |s.universal.tasks| == 0)
  {
    if k !in s.keys {
      assert Partial(CreateKey(s, k), {t}, {t}) by { CreateKeyKeeps(s, k, {t}, {t}); }
      assert NoDup(s.universal.tasks) by { assert UniversalQueue in Names(s); }
      CreateKeyKeyed(s, k, t);
    }
  }

  /** Creating a key seeds it with the universal FIFO, which a keyed task is not in: the task is untouched and stays placed. */
  lemma CreateKeyKeyed<K>(s: State<K>, k: K, t: TaskRef)
    requires k !in s.keys && NoDup(s.universal.tasks) && t in s.tasks && !s.tasks[t].universal
    requires KeyedPlaced(s, t) && k !in s.tasks[t].keyData
    ensures var s0 := CreateKey(s, k);
      t in s0.tasks && s0.tasks[t] == s.tasks[t] && KeyedPlaced(s0, t) &&
      t !in Queue(s0, KeyQueue(k)) && s0.posted == s.posted && s0.done == s.done &&
      s0.keys.Keys == s.keys.Keys + {k} && (|Queue(s0, KeyQueue(k))| == 0 <==> |s.universal.tasks| == 0)
  {
    var s0 := CreateKey(s, k);
    CreateKeyEffect(s, k);
    assert !Waiting(s.universal.tasks, t);
    forall r ensures t in Queue(s0, r) <==> t in Queue(s, r) {}
  }

  /** addPendingTask(key, task) for a keyed task keeps the invariant; the key is appended to keyData and the count rises iff the FIFO was not empty. */
  lemma AddKeyedKeepsKeyed<K>(s: State<K>, k: K, t: TaskRef)
    requires Partial(s, {t}, {t}) && t in s.tasks && !s.tasks[t].universal && t !in s.done
    requires KeyedPlaced(s, t) && k !in s.tasks[t].keyData
    ensures var (s', e) := AddKeyed(s, k, t);
      Partial(s', {t}, {t}) && t in s'.tasks && !s'.tasks[t].universal && KeyedPlaced(s', t) &&
      s'.tasks[t].keyData == s.tasks[t].keyData + [k] &&
      s'.tasks[t].pendingKeyCount == s.tasks[t].pendingKeyCount + (if e then 0 else 1) &&
      s'.posted == s.posted && s'.done == s.done && s'.keys.Keys == s.keys.Keys + {k} &&
      (e <==> if k in s.keys then |Queue(s, KeyQueue(k))| == 0 else |s.universal.tasks| == 0)
  {
    var s0 := if k in s.keys then s else CreateKey(s, k);
    PrepareKeyKeeps(s, k, t);
    JoinKeyKeyed(s0, k, t);
  }

  lemma JoinKeyKeyed<K>(s0: State<K>, k: K, t: TaskRef)
    requires Partial(s0, {t}, {t}) && t in s0.tasks && !s0.tasks[t].universal && t !in s0.done
    requires KeyedPlaced(s0, t) && k !in s0.tasks[t].keyData && k in s0.keys && t !in Queue(s0, KeyQueue(k))
    ensures var (s1, e) := Push(s0, KeyQueue(k), t);
      var (s2, e2) := AddKeyed(s0, k, t);
      e2 == e && (e <==> |Queue(s0, KeyQueue(k))| == 0) &&
      Partial(s2, {t}, {t}) && t in s2.tasks && !s2.tasks[t].universal && KeyedPlaced(s2, t) &&
      s2.tasks[t].keyData == s0.tasks[t].keyData + [k] &&
      s2.tasks[t].pendingKeyCount == s0.tasks[t].pendingKeyCount + (if e then 0 else 1) &&
      s2.posted == s0.posted && s2.done == s0.done && s2.keys.Keys == s0.keys.Keys
  {
    assert KeyQueue(k) in Names(s0);
    PushKeeps(s0, KeyQueue(k), t, {t}, {t});
    PushEffect(s0, KeyQueue(k), t);
    var (s1, e) := Push(s0, KeyQueue(k), t);
    assert t !in Queue(s1, UniversalQueue) by { assert t !in Queue(s0, UniversalQueue); }
    forall j | j in s0.tasks[t].keyData ensures j in s1.keys && t in Queue(s1, KeyQueue(j)) {
      assert j != k && t in Queue(s0, KeyQueue(j));
    }
    forall j | j in s1.keys && t in Queue(s1, KeyQueue(j)) && j != k ensures j in s0.tasks[t].keyData {
      assert t in Queue(s0, KeyQueue(j));
    }
    NoDupAppend(s0.tasks[t].keyData, k);
    RecordKey(s1, k, t);
  }

  /** The keyed branch of addPendingTask: remember the key in keyData and count the task in the key's statistics. */
  lemma RecordKey<K>(s1: State<K>, k: K, t: TaskRef)
    requires Partial(s1, {t}, {t}) && t in s1.tasks && !s1.tasks[t].universal
    requires k in s1.keys && t in Queue(s1, KeyQueue(k)) && t !in Queue(s1, UniversalQueue)
    requires NoDup(s1.tasks[t].keyData + [k])
    requires forall j | j in s1.tasks[t].keyData :: j in s1.keys && t in Queue(s1, KeyQueue(j))
    requires forall j | j in s1.keys && t in Queue(s1, KeyQueue(j)) && j != k :: j in s1.tasks[t].keyData
    ensures var s2 := s1.(tasks := s1.tasks[t := s1.tasks[t].(keyData := s1.tasks[t].keyData + [k])],
                          keys := UpdateKeyStats(UpdateKeyStats(s1.keys, k, IncrementPosted), k, IncrementPending));
      Partial(s2, {t}, {t}) && KeyedPlaced(s2, t) && s2.keys.Keys == s1.keys.Keys
  {
    var s2 := s1.(tasks := s1.tasks[t := s1.tasks[t].(keyData := s1.tasks[t].keyData + [k])],
                  keys := UpdateKeyStats(UpdateKeyStats(s1.keys, k, IncrementPosted), k, IncrementPending));
    assert SameQueues(s1, s2) by {
      UpdateKeyStatsQueues(s1.keys, k, IncrementPosted);
      UpdateKeyStatsQueues(UpdateKeyStats(s1.keys, k, IncrementPosted), k, IncrementPending);
    }
    assert Partial(s2, {t}, {t}) by { ReshapeKeeps(s1, s2, {t}, {t}); }
    assert KeyedPlaced(s2, t) by { SameQueuesEffect(s1, s2); }
  }

  lemma {:induction false} AddKeysKeepsKeyed<K>(s: State<K>, t: TaskRef, ks: seq<K>)
    requires Partial(s, {t}, {t}) && t in s.tasks && !s.tasks[t].universal && t !in s.done && KeyedPlaced(s, t)
    ensures var (s', e) := AddKeys(s, t, ks);
      Partial(s', {t}, {t}) && t in s'.tasks && !s'.tasks[t].universal && t !in s'.done && KeyedPlaced(s', t) &&
      s'.posted == s.posted &&
      (e ==> s'.tasks[t].pendingKeyCount == s.tasks[t].pendingKeyCount) &&
      (!e ==> s'.tasks[t].pendingKeyCount > s.tasks[t].pendingKeyCount) &&
      (forall k | k in ks || k in s.tasks[t].keyData :: k in s'.tasks[t].keyData) &&
      (forall k | k in s'.tasks[t].keyData :: k in ks || k in s.tasks[t].keyData)
    decreases |ks|
  {
    if |ks| > 0 {
      if ks[0] in s.tasks[t].keyData {
        AddKeysKeepsKeyed(s, t, ks[1..]);
      } else {
        AddKeyedKeepsKeyed(s, ks[0], t);
        AddKeysKeepsKeyed(AddKeyed(s, ks[0], t).0, t, ks[1..]);
      }
      assert forall k | k in ks :: k == ks[0] || k in ks[1..];
    }
  }

  /** addPendingTask(key, task) for a universal task and an existing key is a plain push_back. */
  lemma AddKeyedKeepsUniversal<K>(s: State<K>, k: K, t: TaskRef)
    requires Partial(s, {t}, {t}) && t in s.tasks && s.tasks[t].universal && t !in s.done
    requires k in s.keys && t !in Queue(s, KeyQueue(k))
    ensures var (s', e) := AddKeyed(s, k, t);
      Partial(s', {t}, {t}) && Names(s') == Names(s) && s'.keys.Keys == s.keys.Keys &&
      t in s'.tasks && s'.tasks[t].universal && s'.tasks[t].keyData == s.tasks[t].keyData &&
      t in Queue(s', KeyQueue(k)) && (forall r | r != KeyQueue(k) :: Queue(s', r) == Queue(s, r)) &&
      s'.tasks[t].pendingKeyCount == s.tasks[t].pendingKeyCount + (if e then 0 else 1) &&
      (e <==> |Queue(s, KeyQueue(k))| == 0) && s'.posted == s.posted && s'.done == s.done
  {
    assert KeyQueue(k) in Names(s);
    PushKeeps(s, KeyQueue(k), t, {t}, {t});
    PushEffect(s, KeyQueue(k), t);
  }

  lemma {:induction false} AddKeysKeepsUniversal<K>(s: State<K>, t: TaskRef, ks: seq<K>)
    requires Partial(s, {t}, {t}) && t in s.tasks && s.tasks[t].universal && s.tasks[t].keyData == [] && t !in s.done
    requires NoDup(ks) && forall k | k in ks :: k in s.keys && t !in Queue(s, KeyQueue(k))
    ensures var (s', e) := AddKeys(s, t, ks);
      Partial(s', {t}, {t}) && t in s'.tasks && s'.tasks[t].universal && s'.tasks[t].keyData == [] && t !in s'.done &&
      s'.posted == s.posted &&
      (e ==> s'.tasks[t].pendingKeyCount == s.tasks[t].pendingKeyCount) &&
      (!e ==> s'.tasks[t].pendingKeyCount > s.tasks[t].pendingKeyCount)
    decreases |ks|
  {
    if |ks| > 0 {
      AddKeyedKeepsUniversal(s, ks[0], t);
      AddKeysTail(s, t, ks);
      AddKeysKeepsUniversal(AddKeyed(s, ks[0], t).0, t, ks[1..]);
    }
  }

  /** After joining the first key, the remaining keys are still unjoined. */
  lemma AddKeysTail<K>(s: State<K>, t: TaskRef, ks: seq<K>)
    requires Partial(s, {t}, {t}) && t in s.tasks && s.tasks[t].universal && t !in s.done
    requires |ks| > 0 && NoDup(ks) && forall k | k in ks :: k in s.keys && t !in Queue(s, KeyQueue(k))
    ensures var s1 := AddKeyed(s, ks[0], t).0;
      NoDup(ks[1..]) && forall j | j in ks[1..] :: j in s1.keys && t !in Queue(s1, KeyQueue(j))
  {
    var k := ks[0];
    AddKeyedKeepsUniversal(s, k, t);
    var s1 := AddKeyed(s, k, t).0;
    assert NoDup(ks[1..]) by {
      forall i, j | 0 <= i < j < |ks| - 1 ensures ks[1..][i] != ks[1..][j] { assert ks[1..][i] == ks[i + 1]; }
    }
    forall j | j in ks[1..] ensures j in s1.keys && t !in Queue(s1, KeyQueue(j)) {
      var i :| 0 <= i < |ks[1..]| && ks[1..][i] == j;
      assert ks[i + 1] == j && ks[0] == k;
      assert KeyQueue(j) != KeyQueue(k);
    }
  }

  /** One iteration of enqueueAllImpl's key loop, seen from the universal task. */
  lemma UniversalJoinStep<K>(s: State<K>, t: TaskRef, ks: seq<K>)
    requires t in s.tasks && s.tasks[t].universal && s.tasks[t].keyData == []
    requires |ks| > 0 && NoDup(ks) && forall k | k in ks :: k in s.keys && t !in Queue(s, KeyQueue(k))
    ensures var s1 := AddKeyed(s, ks[0], t).0;
      t in s1.tasks && s1.tasks[t].universal && s1.tasks[t].keyData == [] && NoDup(ks[1..]) &&
      Names(s1) == Names(s) && s1.keys.Keys == s.keys.Keys &&
      (AddKeyed(s, ks[0], t).1 <==> |Queue(s, KeyQueue(ks[0]))| == 0) &&
      (forall j | j in ks[1..] :: j in s1.keys && t !in Queue(s1, KeyQueue(j)) && Queue(s1, KeyQueue(j)) == Queue(s, KeyQueue(j))) &&
      (forall r | r in Names(s) :: t in Queue(s1, r) <==> t in Queue(s, r) || r == KeyQueue(ks[0]))
  {
    var k := ks[0];
    assert KeyQueue(k) in Names(s);
    PushEffect(s, KeyQueue(k), t);
    var s1 := AddKeyed(s, k, t).0;
    assert s1 == Push(s, KeyQueue(k), t).0;
    assert NoDup(ks[1..]) by {
      forall i, j | 0 <= i < j < |ks| - 1 ensures ks[1..][i] != ks[1..][j] { assert ks[1..][i] == ks[i + 1]; }
    }
    forall j | j in ks[1..] ensures j in s1.keys && t !in Queue(s1, KeyQueue(j)) && Queue(s1, KeyQueue(j)) == Queue(s, KeyQueue(j)) {
      var i :| 0 <= i < |ks[1..]| && ks[1..][i] == j;
      assert ks[i + 1] == j && ks[0] == k;
    }
  }

  /** The FIFOs a universal task sits in after the key loop: those it was in, plus those of `ks`. */
  lemma {:induction false} AddKeysUniversalQueues<K>(s: State<K>, t: TaskRef, ks: seq<K>)
    requires t in s.tasks && s.tasks[t].universal && s.tasks[t].keyData == []
    requires NoDup(ks) && forall k | k in ks :: k in s.keys && t !in Queue(s, KeyQueue(k))
    ensures var s' := AddKeys(s, t, ks).0;
      Names(s') == Names(s) && s'.keys.Keys == s.keys.Keys &&
      forall r | r in Names(s) :: t in Queue(s', r) <==> t in Queue(s, r) || (r.KeyQueue? && r.key in ks)
    decreases |ks|
  {
    if |ks| > 0 {
      UniversalJoinStep(s, t, ks);
      AddKeysUniversalQueues(AddKeyed(s, ks[0], t).0, t, ks[1..]);
      assert forall j | j in ks :: j == ks[0] || j in ks[1..];
    }
  }

  /** enqueueSingle / enqueueMultiple keep the invariant; the new task is posted exactly when every addPendingTask returned true. */
  lemma EnqueueKeeps<K>(s: State<K>, t: TaskRef, ks: seq<K>, queueId: int, isHighPriority: bool, opaqueData: nat)
    requires Inv(s) && t !in s.tasks
    ensures var r := Enqueue(s, t, ks, queueId, isHighPriority, opaqueData);
      Inv(r) && t in r.tasks &&
      (t in r.posted <==> AddKeys(NewTask(s, t, false, queueId, isHighPriority, opaqueData), t, ks).1) &&
      (forall k | k in ks :: k in r.keys && t in Queue(r, KeyQueue(k)))
  {
    var s1 := NewTask(s, t, false, queueId, isHighPriority, opaqueData);
    NewTaskKeeps(s, t, false, queueId, isHighPriority, opaqueData);
    var (s2, canSchedule) := AddKeys(s1, t, ks);
    AddKeysKeepsKeyed(s1, t, ks);
    assert KeyedPlaced(s2, t);
    if canSchedule {
      ScheduleKeeps(s2, t, {t}, {t});
      var s3 := Schedule(s2, t);
      ScheduleEffect(s2, t);
      SameQueuesEffect(s2, s3);
      PlacementFollowsMembership(s2, s3, t);
      Unskip(s3, t);
    } else {
      Unskip(s2, t);
    }
  }

  /** enqueueAllImpl keeps the invariant; the universal task sits in every FIFO and is posted exactly when every FIFO was empty. */
  lemma EnqueueAllKeeps<K>(s: State<K>, t: TaskRef, order: seq<K>, queueId: int, isHighPriority: bool, opaqueData: nat)
    requires Inv(s) && t !in s.tasks && Enumerates(s, order)
    ensures var r := EnqueueAll(s, t, order, queueId, isHighPriority, opaqueData);
      var s1 := NewTask(s, t, true, queueId, isHighPriority, opaqueData);
      var (s2, e0) := AddUniversal(s1, t);
      Inv(r) && t in r.tasks && UniversalPlaced(r, t) && r.keys.Keys == s.keys.Keys &&
      (t in r.posted <==> e0 && AddKeys(s2, t, order).1)
  {
    var s1 := NewTask(s, t, true, queueId, isHighPriority, opaqueData);
    NewTaskKeeps(s, t, true, queueId, isHighPriority, opaqueData);
    var e0 := AddUniversal(s1, t).1;
    JoinUniversal(s1, t, order);
    EnqueueAllRest(AddUniversal(s1, t).0, t, order, e0);
  }

  /** addPendingTask(task) on the fresh universal task: it joins the universal FIFO and nothing else. */
  lemma JoinUniversal<K>(s1: State<K>, t: TaskRef, order: seq<K>)
    requires Partial(s1, {t}, {t}) && t in s1.tasks && s1.tasks[t].universal && s1.tasks[t].keyData == []
    requires t !in s1.done && t !in s1.posted && s1.tasks[t].pendingKeyCount == 0
    requires (forall q | q in Names(s1) :: t !in Queue(s1, q)) && forall k | k in order :: k in s1.keys
    ensures var (s2, e0) := AddUniversal(s1, t);
      Partial(s2, {t}, {t}) && t in s2.tasks && s2.tasks[t].universal && s2.tasks[t].keyData == [] && t !in s2.done &&
      t !in s2.posted && s2.tasks[t].pendingKeyCount == (if e0 then 0 else 1) &&
      t in Queue(s2, UniversalQueue) && Names(s2) == Names(s1) && s2.keys.Keys == s1.keys.Keys &&
      forall k | k in order :: k in s2.keys && t !in Queue(s2, KeyQueue(k))
  {
    JoinUniversalKeeps(s1, t);
    JoinUniversalFacts(s1, t, order);
  }

  lemma JoinUniversalKeeps<K>(s1: State<K>, t: TaskRef)
    requires Partial(s1, {t}, {t}) && t in s1.tasks && t !in s1.done && t !in Queue(s1, UniversalQueue)
    ensures Partial(AddUniversal(s1, t).0, {t}, {t})
  {
    var (sp, e0) := Push(s1, UniversalQueue, t);
    PushKeeps(s1, UniversalQueue, t, {t}, {t});
    PushEffect(s1, UniversalQueue, t);
    var s2 := AddUniversal(s1, t).0;
    assert SameQueues(sp, s2);
    ReshapeKeeps(sp, s2, {t}, {t});
  }

  lemma JoinUniversalFacts<K>(s1: State<K>, t: TaskRef, order: seq<K>)
    requires t in s1.tasks && s1.tasks[t].universal && s1.tasks[t].keyData == []
    requires t !in s1.done && t !in s1.posted && s1.tasks[t].pendingKeyCount == 0
    requires (forall q | q in Names(s1) :: t !in Queue(s1, q)) && forall k | k in order :: k in s1.keys
    ensures var (s2, e0) := AddUniversal(s1, t);
      t in s2.tasks && s2.tasks[t].universal && s2.tasks[t].keyData == [] && t !in s2.done &&
      t !in s2.posted && s2.tasks[t].pendingKeyCount == (if e0 then 0 else 1) &&
      t in Queue(s2, UniversalQueue) && Names(s2) == Names(s1) && s2.keys.Keys == s1.keys.Keys &&
      forall k | k in order :: k in s2.keys && t !in Queue(s2, KeyQueue(k))
  {
    var (sp, e0) := Push(s1, UniversalQueue, t);
    PushEffect(s1, UniversalQueue, t);
    var s2 := AddUniversal(s1, t).0;
    assert SameQueues(sp, s2);
    SameQueuesEffect(sp, s2);
    forall k | k in order ensures k in s2.keys && t !in Queue(s2, KeyQueue(k)) {
      assert KeyQueue(k) in Names(s1);
    }
  }

  /** The key loop of enqueueAllImpl, then the posting decision. */
  lemma EnqueueAllRest<K>(s2: State<K>, t: TaskRef, order: seq<K>, e0: bool)
    requires Partial(s2, {t}, {t}) && t in s2.tasks && s2.tasks[t].universal && s2.tasks[t].keyData == [] && t !in s2.done
    requires t !in s2.posted && s2.tasks[t].pendingKeyCount == (if e0 then 0 else 1) && t in Queue(s2, UniversalQueue)
    requires NoDup(order) && (forall k | k in order :: k in s2.keys && t !in Queue(s2, KeyQueue(k))) &&
             forall k | k in s2.keys :: k in order
    ensures var (s3, e1) := AddKeys(s2, t, order);
      var r := if e0 && e1 then Schedule(s3, t) else s3;
      Inv(r) && t in r.tasks && UniversalPlaced(r, t) && r.keys.Keys == s2.keys.Keys && (t in r.posted <==> e0 && e1)
  {
    AddKeysKeepsUniversal(s2, t, order);
    AddKeysUniversalQueues(s2, t, order);
    var (s3, e1) := AddKeys(s2, t, order);
    assert UniversalPlaced(s3, t) by {
      forall r | r in Names(s3) ensures t in Queue(s3, r) {
        assert r in Names(s2);
        if r.KeyQueue? { assert r.key in order; }
      }
    }
    EnqueueAllFinish(s3, t, e0 && e1);
  }

  /** Post the placed task when it is ready, or leave it waiting. */
  lemma EnqueueAllFinish<K>(s3: State<K>, t: TaskRef, canSchedule: bool)
    requires Partial(s3, {t}, {t}) && t in s3.tasks && t !in s3.done && t !in s3.posted
    requires if s3.tasks[t].universal then UniversalPlaced(s3, t) else KeyedPlaced(s3, t)
    requires canSchedule <==> s3.tasks[t].pendingKeyCount == 0
    ensures var r := if canSchedule then Schedule(s3, t) else s3;
      Inv(r) && t in r.tasks && (t in r.posted <==> canSchedule) && r.keys.Keys == s3.keys.Keys &&
      (forall q :: Queue(r, q) == Queue(s3, q)) && Names(r) == Names(s3) &&
      (if r.tasks[t].universal then UniversalPlaced(r, t) else KeyedPlaced(r, t))
  {
    if canSchedule {
      ScheduleKeeps(s3, t, {t}, {t});
      var s4 := Schedule(s3, t);
      ScheduleEffect(s3, t);
      SameQueuesEffect(s3, s4);
      PlacementFollowsMembership(s3, s4, t);
      Unskip(s4, t);
    } else {
      Unskip(s3, t);
    }
  }

  /** Dropping the keys with empty FIFOs keeps the invariant. */
  lemma TrimKeeps<K>(s: State<K>)
    requires Inv(s)
    ensures Inv(Trim(s))
  {
    var s' := Trim(s);
    assert forall q :: Queue(s', q) == Queue(s, q);
    assert Names(s') <= Names(s);
    forall u ensures Blocking(s', u) == Blocking(s, u) {
      forall q | q in Blocking(s, u) ensures q in Names(s') {
        if q.KeyQueue? { assert |Queue(s, q)| > 0; }
      }
    }
    forall u | u in s'.tasks && u !in s'.done
      ensures if s'.tasks[u].universal then UniversalPlaced(s', u) else KeyedPlaced(s', u)
    {
      if !s.tasks[u].universal {
        assert KeyedPlaced(s, u);
        forall k | k in s.tasks[u].keyData ensures k in s'.keys {
          assert u in Queue(s, KeyQueue(k));
        }
      }
    }
  }

  // ------------------------------------------------------------------
  // What the invariant buys
  // ------------------------------------------------------------------

  lemma InitialInv<K>()
    ensures Inv(InitialState<K>())
  {
  }

  /** A posted task that has not completed heads every FIFO it sits in. */
  lemma RunningHeadsItsQueues<K>(s: State<K>, t: TaskRef, q: QueueName<K>)
    requires Inv(s) && t in s.posted && t !in s.done && q in Names(s) && t in Queue(s, q)
    ensures Queue(s, q)[0] == t
  {
    ReadyIsHead(s, t, q);
  }

  /** Tasks sharing a key never run at the same time: two running tasks are never in the same FIFO. */
  lemma RunningTasksShareNoQueue<K>(s: State<K>, t1: TaskRef, t2: TaskRef, q: QueueName<K>)
    requires Inv(s) && t1 in s.posted && t2 in s.posted && t1 !in s.done && t2 !in s.done && t1 != t2
    requires q in Names(s)
    ensures !(t1 in Queue(s, q) && t2 in Queue(s, q))
  {
    if t1 in Queue(s, q) && t2 in Queue(s, q) {
      ReadyIsHead(s, t1, q);
      ReadyIsHead(s, t2, q);
    }
  }

  /** No stall: a pending task that heads every FIFO it sits in has been posted. */
  lemma HeadEverywhereIsPosted<K>(s: State<K>, t: TaskRef)
    requires Inv(s) && t in s.tasks && t !in s.done
    requires forall q | q in Names(s) && t in Queue(s, q) :: Queue(s, q)[0] == t
    ensures t in s.posted
  {
    assert Blocking(s, t) == {};
  }

  // ------------------------------------------------------------------
  // When a new task is posted at once
  // ------------------------------------------------------------------

  /** The FIFO a new task on key `k` would join holds nothing (for a new key: no universal task is pending). */
  predicate Free<K>(s: State<K>, k: K)
  {
    if k in s.keys then |Queue(s, KeyQueue(k))| == 0 else |Queue(s, UniversalQueue)| == 0
  }

  /** Joining key `k0` leaves every other key's freedom unchanged. */
  lemma AddKeyedKeepsOtherFree<K>(s: State<K>, k0: K, t: TaskRef, k: K)
    requires WellFormed(s) && t in s.tasks && !s.tasks[t].universal && t !in Queue(s, UniversalQueue) && k != k0
    requires k0 in s.keys ==> t !in Queue(s, KeyQueue(k0))
    ensures Free(AddKeyed(s, k0, t).0, k) == Free(s, k)
  {
    var s0 := if k0 in s.keys then s else CreateKey(s, k0);
    if k0 !in s.keys {
      assert NoDup(s.universal.tasks) by { assert UniversalQueue in Names(s); }
      CreateKeyEffect(s, k0);
      assert Queue(s0, KeyQueue(k)) == Queue(s, KeyQueue(k));
      assert t !in Queue(s0, KeyQueue(k0));
    }
    assert KeyQueue(k0) in Names(s0);
    PushEffect(s0, KeyQueue(k0), t);
    var s1 := Push(s0, KeyQueue(k0), t).0;
    var s2 := AddKeyed(s, k0, t).0;
    UpdateKeyStatsQueues(s1.keys, k0, IncrementPosted);
    UpdateKeyStatsQueues(UpdateKeyStats(s1.keys, k0, IncrementPosted), k0, IncrementPending);
    assert SameQueues(s1, s2);
    SameQueuesEffect(s1, s2);
  }

  /** What the flag argument needs of the keyed task being enqueued: it sits only in the FIFOs of its keyData. */
  ghost predicate Joinable<K>(s: State<K>, t: TaskRef)
  {
    WellFormed(s) && t in s.tasks && !s.tasks[t].universal && t !in Queue(s, UniversalQueue) &&
    forall k | k in s.keys && t in Queue(s, KeyQueue(k)) :: k in s.tasks[t].keyData
  }

  lemma JoinableStep<K>(s: State<K>, k0: K, t: TaskRef)
    requires Joinable(s, t) && k0 !in s.tasks[t].keyData
    ensures var s1 := AddKeyed(s, k0, t).0;
      Joinable(s1, t) && s1.tasks[t].keyData == s.tasks[t].keyData + [k0]
  {
    JoinablePrepare(s, k0, t);
    JoinableJoin(if k0 in s.keys then s else CreateKey(s, k0), k0, t);
  }

  lemma JoinablePrepare<K>(s: State<K>, k0: K, t: TaskRef)
    requires Joinable(s, t) && k0 !in s.tasks[t].keyData
    ensures var s0 := if k0 in s.keys then s else CreateKey(s, k0);
      Joinable(s0, t) && s0.tasks[t] == s.tasks[t] && k0 in s0.keys && t !in Queue(s0, KeyQueue(k0))
  {
    if k0 !in s.keys {
      assert NoDup(s.universal.tasks) by { assert UniversalQueue in Names(s); }
      CreateKeyEffect(s, k0);
      CreateKeyKeepsWellFormed(s, k0);
      assert !Waiting(s.universal.tasks, t);
    }
  }

  lemma JoinableJoin<K>(s0: State<K>, k0: K, t: TaskRef)
    requires Joinable(s0, t) && k0 !in s0.tasks[t].keyData && k0 in s0.keys && t !in Queue(s0, KeyQueue(k0))
    ensures var s2 := JoinKey(s0, k0, t).0;
      Joinable(s2, t) && s2.tasks[t].keyData == s0.tasks[t].keyData + [k0]
  {
    assert KeyQueue(k0) in Names(s0);
    var s1 := Push(s0, KeyQueue(k0), t).0;
    assert WellFormed(s1) && t in s1.tasks && !s1.tasks[t].universal && t !in Queue(s1, UniversalQueue) &&
           s1.tasks[t].keyData == s0.tasks[t].keyData &&
           forall k | k in s1.keys && t in Queue(s1, KeyQueue(k)) :: k == k0 || k in s0.tasks[t].keyData
    by {
      PushEffect(s0, KeyQueue(k0), t);
      PushKeepsWellFormed(s0, KeyQueue(k0), t);
      forall k | k in s1.keys && t in Queue(s1, KeyQueue(k)) ensures k == k0 || k in s0.tasks[t].keyData {
        if k != k0 { assert t in Queue(s0, KeyQueue(k)); }
      }
    }
    var s2 := s1.(tasks := s1.tasks[t := s1.tasks[t].(keyData := s1.tasks[t].keyData + [k0])],
                  keys := UpdateKeyStats(UpdateKeyStats(s1.keys, k0, IncrementPosted), k0, IncrementPending));
    assert s2 == JoinKey(s0, k0, t).0;
    assert SameQueues(s1, s2) by {
      UpdateKeyStatsQueues(s1.keys, k0, IncrementPosted);
      UpdateKeyStatsQueues(UpdateKeyStats(s1.keys, k0, IncrementPosted), k0, IncrementPending);
    }
    JoinableReshape(s1, s2, k0, t);
  }

  /** Recording the joined key in keyData, with the FIFOs unchanged, makes the task joinable again. */
  lemma JoinableReshape<K>(s1: State<K>, s2: State<K>, k0: K, t: TaskRef)
    requires WellFormed(s1) && t in s1.tasks && !s1.tasks[t].universal && t !in Queue(s1, UniversalQueue)
    requires forall k | k in s1.keys && t in Queue(s1, KeyQueue(k)) :: k == k0 || k in s1.tasks[t].keyData
    requires SameQueues(s1, s2) && s2.tasks.Keys == s1.tasks.Keys
    requires s2.tasks[t] == s1.tasks[t].(keyData := s1.tasks[t].keyData + [k0])
    ensures Joinable(s2, t)
  {
    SameQueuesEffect(s1, s2);
  }

  /** The enqueue loop's flag is true iff every key not yet joined was free. */
  lemma {:induction false} AddKeysFlag<K>(s: State<K>, t: TaskRef, ks: seq<K>)
    requires Joinable(s, t)
    ensures AddKeys(s, t, ks).1 <==> forall k | k in ks && k !in s.tasks[t].keyData :: Free(s, k)
    decreases |ks|
  {
    if |ks| > 0 {
      var k0 := ks[0];
      if k0 in s.tasks[t].keyData {
        AddKeysFlag(s, t, ks[1..]);
      } else {
        JoinableStep(s, k0, t);
        AddKeysFlag(AddKeyed(s, k0, t).0, t, ks[1..]);
        FlagStep(s, k0, t, ks[1..]);
      }
      assert forall k | k in ks :: k == k0 || k in ks[1..];
    }
  }

  lemma FlagStep<K>(s: State<K>, k0: K, t: TaskRef, rest: seq<K>)
    requires Joinable(s, t) && k0 !in s.tasks[t].keyData
    requires var s1 := AddKeyed(s, k0, t).0; t in s1.tasks && s1.tasks[t].keyData == s.tasks[t].keyData + [k0]
    ensures var s1 := AddKeyed(s, k0, t).0;
      (forall k | k in rest && k !in s1.tasks[t].keyData :: Free(s1, k)) <==>
      (forall k | k in rest && k !in s.tasks[t].keyData && k != k0 :: Free(s, k))
  {
    var s1 := AddKeyed(s, k0, t).0;
    assert k0 in s.keys ==> t !in Queue(s, KeyQueue(k0));
    forall k | k in rest && k !in s1.tasks[t].keyData ensures Free(s1, k) == Free(s, k) {
      AddKeyedKeepsOtherFree(s, k0, t, k);
    }
  }

  /** enqueue(sequenceKeys, ...) posts the task at once iff none of its keys has a pending task. */
  lemma EnqueuePostsIffFree<K>(s: State<K>, t: TaskRef, ks: seq<K>, queueId: int, isHighPriority: bool, opaqueData: nat)
    requires Inv(s) && t !in s.tasks
    ensures t in Enqueue(s, t, ks, queueId, isHighPriority, opaqueData).posted <==> forall k | k in ks :: Free(s, k)
  {
    var s1 := NewTask(s, t, false, queueId, isHighPriority, opaqueData);
    NewTaskKeeps(s, t, false, queueId, isHighPriority, opaqueData);
    EnqueueKeeps(s, t, ks, queueId, isHighPriority, opaqueData);
    forall q | q in Names(s1) ensures t !in Queue(s1, q) {}
    AddKeysFlag(s1, t, ks);
    assert forall k :: Free(s1, k) == Free(s, k);
  }

  /** For a universal task the loop's flag is true iff every visited key FIFO was empty. */
  lemma {:induction false} AddKeysUniversalFlag<K>(s: State<K>, t: TaskRef, ks: seq<K>)
    requires t in s.tasks && s.tasks[t].universal && s.tasks[t].keyData == []
    requires NoDup(ks) && forall k | k in ks :: k in s.keys && t !in Queue(s, KeyQueue(k))
    ensures AddKeys(s, t, ks).1 <==> forall k | k in ks :: |Queue(s, KeyQueue(k))| == 0
    decreases |ks|
  {
    if |ks| > 0 {
      UniversalJoinStep(s, t, ks);
      AddKeysUniversalFlag(AddKeyed(s, ks[0], t).0, t, ks[1..]);
      assert forall j | j in ks :: j == ks[0] || j in ks[1..];
    }
  }

  /** enqueueAll posts the universal task at once iff every FIFO is empty. */
  lemma EnqueueAllPostsIffIdle<K>(s: State<K>, t: TaskRef, order: seq<K>, queueId: int, isHighPriority: bool, opaqueData: nat)
    requires Inv(s) && t !in s.tasks && Enumerates(s, order)
    ensures t in EnqueueAll(s, t, order, queueId, isHighPriority, opaqueData).posted <==>
            forall q | q in Names(s) :: |Queue(s, q)| == 0
  {
    var s1 := NewTask(s, t, true, queueId, isHighPriority, opaqueData);
    NewTaskKeeps(s, t, true, queueId, isHighPriority, opaqueData);
    EnqueueAllKeeps(s, t, order, queueId, isHighPriority, opaqueData);
    JoinUniversalFacts(s1, t, order);
    var (sp, e0) := Push(s1, UniversalQueue, t);
    PushEffect(s1, UniversalQueue, t);
    var s2 := AddUniversal(s1, t).0;
    assert SameQueues(sp, s2);
    SameQueuesEffect(sp, s2);
    AddKeysUniversalFlag(s2, t, order);
    forall k | k in order ensures Queue(s2, KeyQueue(k)) == Queue(s, KeyQueue(k)) {
      assert Queue(s1, KeyQueue(k)) == Queue(s, KeyQueue(k));
    }
    assert Queue(s1, UniversalQueue) == Queue(s, UniversalQueue);
    if forall k | k in order :: |Queue(s, KeyQueue(k))| == 0 {
      forall q | q in Names(s) ensures |Queue(s, q)| == 0 || q == UniversalQueue {
        if q.KeyQueue? { assert q.key in order; }
      }
    }
  }

  /** trimSequenceKeys keeps exactly the keys whose FIFO is not empty, with their data. */
  lemma TrimSpec<K>(s: State<K>)
    ensures forall k :: k in Trim(s).keys <==> k in s.keys && |Queue(s, KeyQueue(k))| > 0
    ensures forall k | k in Trim(s).keys :: Trim(s).keys[k] == s.keys[k]
    ensures Trim(s).universal == s.universal && Trim(s).tasks == s.tasks && Trim(s).posted == s.posted
  {
  }

  // ------------------------------------------------------------------
  // Which tasks exist
  // ------------------------------------------------------------------

  lemma SeededDomain<K>(m: map<TaskRef, Task<K>>, us: seq<TaskRef>)
    ensures Seeded(m, us).Keys == m.Keys
    decreases |us|
  {
    if |us| > 1 {
      SeededDomain(m, us[..|us| - 1]);
    }
  }

  lemma AddKeyedDomain<K>(s: State<K>, k: K, t: TaskRef)
    ensures AddKeyed(s, k, t).0.tasks.Keys == s.tasks.Keys
  {
    SeededDomain(s.tasks, s.universal.tasks);
  }

  lemma {:induction false} AddKeysDomain<K>(s: State<K>, t: TaskRef, ks: seq<K>)
    ensures AddKeys(s, t, ks).0.tasks.Keys == s.tasks.Keys
    decreases |ks|
  {
    if |ks| > 0 {
      if t in s.tasks && ks[0] in s.tasks[t].keyData {
        AddKeysDomain(s, t, ks[1..]);
      } else {
        AddKeyedDomain(s, ks[0], t);
        AddKeysDomain(AddKeyed(s, ks[0], t).0, t, ks[1..]);
      }
    }
  }

  /** Enqueueing adds exactly the new task. */
  /** What enqueueSingle needs of Enqueue on one key: the invariant, the new task in the table, posted iff the key was free. */
  lemma EnqueueSingleKeeps<K>(s: State<K>, t: TaskRef, k: K, queueId: int, isHighPriority: bool, opaqueData: nat)
    requires Inv(s) && t !in s.tasks
    ensures var r := Enqueue(s, t, [k], queueId, isHighPriority, opaqueData);
      Inv(r) && r.tasks.Keys == s.tasks.Keys + {t} && (t in r.posted <==> Free(s, k))
  {
    EnqueueKeeps(s, t, [k], queueId, isHighPriority, opaqueData);
    EnqueueDomain(s, t, [k], queueId, isHighPriority, opaqueData);
    EnqueuePostsIffFree(s, t, [k], queueId, isHighPriority, opaqueData);
  }

  lemma EnqueueDomain<K>(s: State<K>, t: TaskRef, ks: seq<K>, queueId: int, isHighPriority: bool, opaqueData: nat)
    ensures Enqueue(s, t, ks, queueId, isHighPriority, opaqueData).tasks.Keys == s.tasks.Keys + {t}
  {
    AddKeysDomain(NewTask(s, t, false, queueId, isHighPriority, opaqueData), t, ks);
  }

  lemma EnqueueAllDomain<K>(s: State<K>, t: TaskRef, order: seq<K>, queueId: int, isHighPriority: bool, opaqueData: nat)
    ensures EnqueueAll(s, t, order, queueId, isHighPriority, opaqueData).tasks.Keys == s.tasks.Keys + {t}
  {
    var s1 := NewTask(s, t, true, queueId, isHighPriority, opaqueData);
    AddKeysDomain(AddUniversal(s1, t).0, t, order);
  }

  lemma {:induction false} RemoveAllDomain<K>(s: State<K>, t: TaskRef, qs: seq<QueueName<K>>)
    ensures RemoveAll(s, t, qs).tasks.Keys == s.tasks.Keys
    decreases |qs|
  {
    if |qs| > 0 {
      RemoveAllDomain(Step(s, qs[0], t), t, qs[1..]);
    }
  }

  /** Completion removes no task: a completed task stays, marked done. */
  lemma CompleteDomain<K>(s: State<K>, t: TaskRef, order: seq<K>)
    ensures Complete(s, t, order).tasks.Keys == s.tasks.Keys
  {
    RemoveAllDomain(s, t, CompletionQueues(s, t, order));
  }

  // ------------------------------------------------------------------
  // As written: SequencerLite's key seeding, and repeated keys
  // ------------------------------------------------------------------

  /** SequencerLite's seeding loop as written: every seeded universal task gets +1, the head of the universal FIFO included. */
  function SeededAsWritten<K>(m: map<TaskRef, Task<K>>, us: seq<TaskRef>): map<TaskRef, Task<K>>
    decreases |us|
  {
    if |us| == 0 then m else IncCount(SeededAsWritten(m, us[..|us| - 1]), us[|us| - 1])
  }

  function CreateKeyAsWritten<K>(s: State<K>, k: K): State<K>
  {
    s.(keys := s.keys[k := KeyData(s.universal.tasks, NewCounters())],
       tasks := SeededAsWritten(s.tasks, s.universal.tasks))
  }

  /** SequencerLite::addPendingTask(key, task) as written. */
  function AddKeyedAsWritten<K>(s: State<K>, k: K, t: TaskRef): (State<K>, bool)
  {
    JoinKey(if k in s.keys then s else CreateKeyAsWritten(s, k), k, t)
  }

  /** The run behind LiteSeedingStalls, stage by stage: task 0 is enqueued on key 1 and posted. */
  predicate AfterFirst(s: State<int>)
  {
    s.keys.Keys == {1} && Queue(s, KeyQueue(1)) == [0] && s.universal.tasks == [] &&
    s.tasks.Keys == {0} && !s.tasks[0].universal && s.tasks[0].keyData == [1] && s.tasks[0].pendingKeyCount == 0 &&
    s.posted == [0] && s.done == {}
  }

  /** Universal task 1 waits behind task 0. */
  predicate AfterUniversal(s: State<int>)
  {
    s.keys.Keys == {1} && Queue(s, KeyQueue(1)) == [0, 1] && s.universal.tasks == [1] &&
    s.tasks.Keys == {0, 1} && !s.tasks[0].universal && s.tasks[0].keyData == [1] &&
    s.tasks[1].universal && s.tasks[1].pendingKeyCount == 1 &&
    s.posted == [0] && s.done == {}
  }

  /** Task 2 waits behind task 1 on the new key 2; `c` is task 1's count after the seeding. */
  predicate AfterNewKey(s: State<int>, c: nat)
  {
    s.keys.Keys == {1, 2} && Queue(s, KeyQueue(1)) == [0, 1] && Queue(s, KeyQueue(2)) == [1, 2] && s.universal.tasks == [1] &&
    s.tasks.Keys == {0, 1, 2} && !s.tasks[0].universal && s.tasks[0].keyData == [1] &&
    s.tasks[1].universal && s.tasks[1].pendingKeyCount == c &&
    s.posted == [0] && s.done == {}
  }

  lemma RunFirst(s: State<int>)
    requires s == Enqueue(InitialState<int>(), 0, [1], -1, false, 0)
    ensures AfterFirst(s)
  {
    var s1 := NewTask(InitialState<int>(), 0, false, -1, false, 0);
    var s2 := CreateKey(s1, 1);
    assert s2.tasks == s1.tasks;
    var (s3, e) := JoinKey(s2, 1, 0);
    assert e && Queue(s3, KeyQueue(1)) == [0];
    assert AddKeys(s1, 0, [1]) == (s3, true);
    assert DecKeyStats(s3.keys, [1]) == UpdateKeyStats(s3.keys, 1, DecrementPending) by {
      assert [1][1..] == [];
    }
    assert s3.tasks[0].keyData == [1];
  }

  lemma RunUniversal(s1: State<int>, s: State<int>)
    requires AfterFirst(s1) && s == EnqueueAll(s1, 1, [1], -1, false, 0)
    ensures AfterUniversal(s)
  {
    var sa := NewTask(s1, 1, true, -1, false, 0);
    var (sb, e0) := AddUniversal(sa, 1);
    assert e0 && sb.universal.tasks == [1];
    var (sc, e1) := JoinKey(sb, 1, 1);
    assert !e1 && Queue(sc, KeyQueue(1)) == [0, 1];
    assert AddKeys(sb, 1, [1]) == (sc, false);
  }

  lemma RunNewKeyAsWritten(s2: State<int>, s: State<int>)
    requires AfterUniversal(s2) && s == AddKeyedAsWritten(NewTask(s2, 2, false, -1, false, 0), 2, 2).0
    ensures AfterNewKey(s, 2)
  {
    var sa := NewTask(s2, 2, false, -1, false, 0);
    var sb := CreateKeyAsWritten(sa, 2);
    assert SeededAsWritten(sa.tasks, [1]) == IncCount(sa.tasks, 1) by {
      assert [1][..0] == [];
    }
    assert Queue(sb, KeyQueue(2)) == [1] && sb.tasks[1].pendingKeyCount == 2;
  }

  lemma RunNewKey(s2: State<int>, s: State<int>)
    requires AfterUniversal(s2) && s == Enqueue(s2, 2, [2], -1, false, 0)
    ensures AfterNewKey(s, 1)
  {
    var sa := NewTask(s2, 2, false, -1, false, 0);
    var sb := CreateKey(sa, 2);
    assert Seeded(sa.tasks, [1]) == sa.tasks;
    assert Queue(sb, KeyQueue(2)) == [1] && sb.tasks[1].pendingKeyCount == 1;
    var (sc, e) := JoinKey(sb, 2, 2);
    assert !e && Queue(sc, KeyQueue(2)) == [1, 2];
    assert AddKeys(sa, 2, [2]) == (sc, false);
  }

  /** Task 0 completes: it is popped from key 1, and task 1's count drops by one. */
  lemma RunComplete(s3: State<int>, c: nat, s: State<int>)
    requires AfterNewKey(s3, c) && c > 0 && s == Complete(s3, 0, [1, 2])
    ensures Count(s, 1) == c - 1 && s.done == {0}
    ensures s.posted == if c == 1 then [0, 1] else [0]
    ensures Names(s) == {KeyQueue(1), KeyQueue(2), UniversalQueue}
    ensures Queue(s, KeyQueue(1)) == [1] && Queue(s, KeyQueue(2)) == [1, 2] && Queue(s, UniversalQueue) == [1]
    ensures forall q | q in Names(s) :: |Queue(s, q)| > 0 && Queue(s, q)[0] == 1
  {
    assert CompletionQueues(s3, 0, [1, 2]) == [KeyQueue(1)];
    var sa := Step(s3, KeyQueue(1), 0);
    assert RemoveAll(s3, 0, [KeyQueue(1)]) == RemoveAll(sa, 0, []);
    assert Names(s) == {KeyQueue(1), KeyQueue(2), UniversalQueue} by {
      assert s.keys.Keys == {1, 2};
    }
  }

  /** Task 0 runs on key 1; universal task 1 waits behind it; task 2 is enqueued on the new key 2.
      With SequencerLite's seeding, once task 0 completes, task 1 heads every FIFO with a count of 1
      and no running task is left to release it: the sequencer stalls. */
  lemma LiteSeedingStalls()
    ensures var s1 := Enqueue(InitialState<int>(), 0, [1], -1, false, 0);
      var s2 := EnqueueAll(s1, 1, [1], -1, false, 0);
      var s3 := AddKeyedAsWritten(NewTask(s2, 2, false, -1, false, 0), 2, 2).0;
      var s4 := Complete(s3, 0, [1, 2]);
      Count(s4, 1) == 1 && 1 !in s4.posted &&
      (forall q | q in Names(s4) :: |Queue(s4, q)| > 0 && Queue(s4, q)[0] == 1) &&
      (forall x | x in s4.posted :: x in s4.done)
  {
    var s1 := Enqueue(InitialState<int>(), 0, [1], -1, false, 0);
    RunFirst(s1);
    var s2 := EnqueueAll(s1, 1, [1], -1, false, 0);
    RunUniversal(s1, s2);
    var s3 := AddKeyedAsWritten(NewTask(s2, 2, false, -1, false, 0), 2, 2).0;
    RunNewKeyAsWritten(s2, s3);
    RunComplete(s3, 2, Complete(s3, 0, [1, 2]));
  }

  /** The same run with the corrected seeding: task 1 is posted when task 0 completes. */
  lemma CorrectedSeedingRuns()
    ensures var s1 := Enqueue(InitialState<int>(), 0, [1], -1, false, 0);
      var s2 := EnqueueAll(s1, 1, [1], -1, false, 0);
      var s3 := Enqueue(s2, 2, [2], -1, false, 0);
      var s4 := Complete(s3, 0, [1, 2]);
      Count(s4, 1) == 0 && 1 in s4.posted && 2 !in s4.posted
  {
    var s1 := Enqueue(InitialState<int>(), 0, [1], -1, false, 0);
    RunFirst(s1);
    var s2 := EnqueueAll(s1, 1, [1], -1, false, 0);
    RunUniversal(s1, s2);
    var s3 := Enqueue(s2, 2, [2], -1, false, 0);
    RunNewKey(s2, s3);
    RunComplete(s3, 1, Complete(s3, 0, [1, 2]));
  }

  /** The enqueue loop as written: a key listed twice is joined twice. */
  function AddKeysAsWritten<K>(s: State<K>, t: TaskRef, ks: seq<K>): (State<K>, bool)
    decreases |ks|
  {
    if |ks| == 0 then (s, true)
    else
      var (s1, e1) := AddKeyed(s, ks[0], t);
      var (s2, e2) := AddKeysAsWritten(s1, t, ks[1..]);
      (s2, e1 && e2)
  }

  /** enqueue({1, 1}, f) on an idle sequencer as written: the task waits behind itself and is never posted. */
  lemma RepeatedKeyStalls()
    ensures var s1 := NewTask(InitialState<int>(), 0, false, -1, false, 0);
      var (s2, canSchedule) := AddKeysAsWritten(s1, 0, [1, 1]);
      !canSchedule && Queue(s2, KeyQueue(1)) == [0, 0] && s2.tasks[0].pendingKeyCount == 1 && s2.posted == []
  {
    var s1 := NewTask(InitialState<int>(), 0, false, -1, false, 0);
    var (sa, ea) := AddKeyed(s1, 1, 0);
    assert ea && Queue(sa, KeyQueue(1)) == [0];
  }

  /** With repeated keys skipped, the same call posts the task at once. */
  lemma RepeatedKeyRuns()
    ensures 0 in Enqueue(InitialState<int>(), 0, [1, 1], -1, false, 0).posted
  {
    InitialInv<int>();
    EnqueuePostsIffFree(InitialState<int>(), 0, [1, 1], -1, false, 0);
  }
}
