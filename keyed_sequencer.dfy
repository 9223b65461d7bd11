// The objects SequencerLite (quantum_sequencer_lite_impl.h) and
// experimental::Sequencer (quantum_sequencer_experimental_impl.h).
//
// Both keep the same pending-task graph (module SequencerCore) and differ
// in the text of the "disabled" error, in the lock they take and in how they
// seed a new key queue with the pending universal tasks.  The class below
// seeds as experimental::Sequencer does, for both; SequencerCore records
// SequencerLite's own seeding and the stall it leads to.
//
// Posting to the dispatcher is recorded in `posted`; running a posted task
// is the method RunTask, which takes the outcome of the user's function as
// a parameter.  The iteration order of the key map is a parameter `order`.
module KeyedSequencer {
  import opened Wrappers
  import opened FutureStates
  import opened KeyStatistics
  import opened SequencerCore

  /** IQueue::QueueId::Any. */
  const ANY: int := -1

  datatype Flavour = Lite | Experimental

  function DisabledMessage(flavour: Flavour): string
  {
    match flavour
    case Lite => "SequencerLite is disabled"
    case Experimental => "Sequencer is disabled"
  }

  /** The checks every enqueue makes before it creates the task: a draining sequencer, then a queue id below Any. */
  function EnqueueGuard(flavour: Flavour, draining: bool, queueId: int): (r: Option<Failure>)
    ensures r.None? <==> !draining && queueId >= ANY
    ensures draining ==> r == Some(RuntimeError(DisabledMessage(flavour)))
    ensures !draining && queueId < ANY ==> r.value.OutOfRange? && |r.value.what| > 21 && r.value.what[..21] == "Invalid IO queue id: "
  {
    if draining then Some(RuntimeError(DisabledMessage(flavour)))
    else if queueId < ANY then Some(OutOfRange("Invalid IO queue id: " + IntToString(queueId)))
    else None
  }

  /** The key map after the keys in `visited` were checked: the ones with an empty FIFO are gone. */
  function TrimmedBy<K>(m: map<K, KeyData>, visited: set<K>): map<K, KeyData>
  {
    map k | k in m && (k !in visited || |m[k].tasks| > 0) :: m[k]
  }

  lemma TrimmedByStep<K>(m: map<K, KeyData>, visited: set<K>, k: K)
    requires k in m && k !in visited
    ensures var m' := TrimmedBy(m, visited);
      k in m' && TrimmedBy(m, visited + {k}) == if |m[k].tasks| == 0 then m' - {k} else m'
  {
  }

  class Sequencer<K(==)> {
    const flavour: Flavour
    /** Whether the configuration holds an exception callback. */
    const hasExceptionCallback: bool
    /** _pendingTaskQueueMap */
    var keys: map<K, KeyData>
    /** _universalTaskQueue */
    var universal: KeyData
    var tasks: map<TaskRef, Task<K>>
    /** _taskStats */
    var taskStats: Counters
    /** The tasks handed to the dispatcher, in order. */
    var posted: seq<TaskRef>
    /** The tasks whose completion has been processed. */
    ghost var done: set<TaskRef>
    /** The identity the next task gets. */
    var nextTask: TaskRef
    /** _drain */
    var draining: bool

    ghost function Snapshot(): State<K>
      reads this
    {
      State(keys, universal, tasks, taskStats, posted, done)
    }

    ghost predicate Valid()
      reads this
    {
      Inv(Snapshot()) && forall t | t in tasks :: t < nextTask
    }

    constructor (flavour: Flavour, hasExceptionCallback: bool)
      ensures Valid() && Snapshot() == InitialState() && !draining
      ensures this.flavour == flavour && this.hasExceptionCallback == hasExceptionCallback
    {
      this.flavour := flavour;
      this.hasExceptionCallback := hasExceptionCallback;
      keys := map[];
      universal := KeyData([], NewCounters());
      tasks := map[];
      taskStats := NewCounters();
      posted := [];
      done := {};
      nextTask := 0;
      draining := false;
      new;
      InitialInv<K>();
    }

    /** addPendingTask(task): append to the universal FIFO, counting one more wait unless it was empty. */
    method AddPendingUniversal(t: TaskRef) returns (empty: bool)
      modifies this
      ensures (Snapshot(), empty) == AddUniversal(old(Snapshot()), t)
      ensures nextTask == old(nextTask) && draining == old(draining)
    {
      empty := |universal.tasks| == 0;
      universal := universal.(tasks := universal.tasks + [t]);
      if !empty {
        tasks := IncCount(tasks, t);
      }
      universal := universal.(stats := IncrementPending(IncrementPosted(universal.stats)));
    }

    /** A missing key's FIFO starts as a copy of the universal FIFO; every universal task but the first waits once more. */
    method CreateKeyQueue(k: K)
      requires k !in keys
      modifies this
      ensures Snapshot() == CreateKey(old(Snapshot()), k)
      ensures nextTask == old(nextTask) && draining == old(draining)
    {
      keys := keys[k := KeyData([], NewCounters())];
      ghost var m0 := tasks;
      var i := 0;
      while i < |universal.tasks|
        invariant 0 <= i <= |universal.tasks|
        invariant keys == old(keys)[k := KeyData(universal.tasks[..i], NewCounters())]
        invariant tasks == Seeded(m0, universal.tasks[..i])
        invariant universal == old(universal) && taskStats == old(taskStats) && posted == old(posted) && done == old(done)
        invariant nextTask == old(nextTask) && draining == old(draining)
      {
        var u := universal.tasks[i];
        SeededStep(m0, universal.tasks, i);
        assert universal.tasks[..i + 1] == universal.tasks[..i] + [u];
        keys := keys[k := keys[k].(tasks := keys[k].tasks + [u])];
        // every universal task but the first lands behind another one
        if i > 0 {
          tasks := IncCount(tasks, u);
        }
        i := i + 1;
      }
      assert universal.tasks[..i] == universal.tasks;
    }

    /** Append the task to an existing key's FIFO; a keyed task records the key and counts in its statistics. */
    method JoinKeyQueue(k: K, t: TaskRef) returns (empty: bool)
      requires k in keys
      modifies this
      ensures (Snapshot(), empty) == JoinKey(old(Snapshot()), k, t)
      ensures nextTask == old(nextTask) && draining == old(draining)
    {
      var fifo := keys[k].tasks;
      empty := |fifo| == 0;
      keys := keys[k := keys[k].(tasks := fifo + [t])];
      if !empty {
        tasks := IncCount(tasks, t);
      }
      if t in tasks && !tasks[t].universal {
        tasks := tasks[t := tasks[t].(keyData := tasks[t].keyData + [k])];
        keys := UpdateKeyStats(UpdateKeyStats(keys, k, IncrementPosted), k, IncrementPending);
      }
    }

    /** addPendingTask(key, task): create and seed a missing key, then join its FIFO. */
    method AddPendingKeyed(k: K, t: TaskRef) returns (empty: bool)
      modifies this
      ensures (Snapshot(), empty) == AddKeyed(old(Snapshot()), k, t)
      ensures nextTask == old(nextTask) && draining == old(draining)
    {
      if k !in keys {
        CreateKeyQueue(k);
      }
      empty := JoinKeyQueue(k, t);
    }

    /** The enqueue loop over `ks`: a key the task already joined is skipped; the result is false once one FIFO was not empty. */
    method AddPendingKeys(t: TaskRef, ks: seq<K>) returns (canSchedule: bool)
      modifies this
      ensures (Snapshot(), canSchedule) == AddKeys(old(Snapshot()), t, ks)
      ensures nextTask == old(nextTask) && draining == old(draining)
    {
      canSchedule := true;
      var i := 0;
      while i < |ks|
        invariant 0 <= i <= |ks|
        invariant AddKeys(old(Snapshot()), t, ks) == (AddKeys(Snapshot(), t, ks[i..]).0, canSchedule && AddKeys(Snapshot(), t, ks[i..]).1)
        invariant nextTask == old(nextTask) && draining == old(draining)
      {
        assert ks[i..][0] == ks[i] && ks[i..][1..] == ks[i + 1..];
        if !(t in tasks && ks[i] in tasks[t].keyData) {
          var empty := AddPendingKeyed(ks[i], t);
          if !empty {
            canSchedule := false;
          }
        }
        i := i + 1;
      }
    }

    /** removePending(entry, task) / removeCompleted: pop `t` if it heads the FIFO, and return the new head once it waits nowhere. */
    method RemovePendingFrom(q: QueueName<K>, t: TaskRef) returns (next: Option<TaskRef>)
      modifies this
      ensures (Snapshot(), next) == RemoveEntry(old(Snapshot()), q, t)
      ensures nextTask == old(nextTask) && draining == old(draining)
    {
      var fifo := match q
        case UniversalQueue => universal.tasks
        case KeyQueue(k) => if k in keys then keys[k].tasks else [];
      if |fifo| == 0 || fifo[0] != t {
        return None;
      }
      match q {
        case UniversalQueue =>
          universal := universal.(tasks := fifo[1..]);
        case KeyQueue(k) =>
          keys := keys[k := keys[k].(tasks := fifo[1..])];
      }
      if |fifo| == 1 {
        return None;
      }
      var n := fifo[1];
      tasks := DecCount(tasks, n);
      next := if n !in tasks || tasks[n].pendingKeyCount == 0 then Some(n) else None;
    }

    /** scheduleTask: one pending task less for each of its keys (or for the universal key) and in total, then post it. */
    method ScheduleTask(t: TaskRef)
      modifies this
      ensures Snapshot() == Schedule(old(Snapshot()), t)
      ensures nextTask == old(nextTask) && draining == old(draining)
    {
      if t !in tasks {
        return;
      }
      if tasks[t].universal {
        universal := universal.(stats := DecrementPending(universal.stats));
      } else {
        var keyData := tasks[t].keyData;
        var i := 0;
        while i < |keyData|
          invariant 0 <= i <= |keyData|
          invariant DecKeyStats(old(keys), keyData) == DecKeyStats(keys, keyData[i..])
          invariant universal == old(universal) && tasks == old(tasks) && taskStats == old(taskStats)
          invariant posted == old(posted) && done == old(done)
          invariant nextTask == old(nextTask) && draining == old(draining)
        {
          assert keyData[i..][0] == keyData[i] && keyData[i..][1..] == keyData[i + 1..];
          keys := UpdateKeyStats(keys, keyData[i], DecrementPending);
          i := i + 1;
        }
      }
      taskStats := DecrementPending(taskStats);
      posted := posted + [t];
    }

    /** One FIFO of a completed task: remove it, and post the new head if it waits nowhere else. */
    method RemoveAndSchedule(q: QueueName<K>, t: TaskRef)
      modifies this
      ensures Snapshot() == Step(old(Snapshot()), q, t)
      ensures nextTask == old(nextTask) && draining == old(draining)
    {
      var next := RemovePendingFrom(q, t);
      if next.Some? {
        ScheduleTask(next.value);
      }
    }

    /** removePending(task) / removeCompletedAndScheduleNext: leave every FIFO of `t` (all of them, keys in map order, for a
        universal task) and post each task that no longer waits. */
    method RemovePending(t: TaskRef, order: seq<K>)
      requires Enumerates(Snapshot(), order)
      modifies this
      ensures Snapshot() == Complete(old(Snapshot()), t, order)
      ensures nextTask == old(nextTask) && draining == old(draining)
    {
      var qs := CompletionQueues(State(keys, universal, tasks, taskStats, posted, {}), t, order);
      assert qs == CompletionQueues(Snapshot(), t, order);
      RemoveFromAll(t, qs);
      done := done + {t};
    }

    /** The loop of removePending: each FIFO in `qs` in turn. */
    method RemoveFromAll(t: TaskRef, qs: seq<QueueName<K>>)
      modifies this
      ensures Snapshot() == RemoveAll(old(Snapshot()), t, qs)
      ensures done == old(done) && nextTask == old(nextTask) && draining == old(draining)
    {
      ghost var s0 := Snapshot();
      var i := 0;
      while i < |qs|
        invariant 0 <= i <= |qs|
        invariant RemoveAll(s0, t, qs) == RemoveAll(Snapshot(), t, qs[i..])
        invariant done == old(done)
        invariant nextTask == old(nextTask) && draining == old(draining)
      {
        RemoveAllSlice(Snapshot(), t, qs, i);
        RemoveAndSchedule(qs[i], t);
        i := i + 1;
      }
    }

    /** The posted wrapper (taskWrapper / executePending): run the function, report an exception with the task's opaque
        pointer when a callback is configured, then remove the task. Returns the function's code, -1 if it threw. */
    method RunTask(t: TaskRef, order: seq<K>, body: Outcome<int>) returns (rc: int, report: Option<(Failure, nat)>)
      requires Valid() && t in posted && t !in done && Enumerates(Snapshot(), order)
      modifies this
      ensures Valid()
      ensures rc == (if body.Ok? then body.value else -1)
      ensures report.Some? <==> body.Throw? && hasExceptionCallback
      ensures report.Some? ==> report.value == (body.failure, old(tasks[t].opaqueData))
      ensures Snapshot() == Complete(old(Snapshot()), t, order)
      ensures forall q | q in Names(Snapshot()) :: t !in Queue(Snapshot(), q)
      ensures nextTask == old(nextTask) && draining == old(draining)
    {
      rc := -1;
      report := None;
      if body.Ok? {
        rc := body.value;
      } else if hasExceptionCallback {
        report := Some((body.failure, tasks[t].opaqueData));
      }
      ghost var s0 := Snapshot();
      CompleteKeeps(s0, t, order);
      CompleteDomain(s0, t, order);
      RemovePending(t, order);
    }

    /** The new task, counted as posted and pending in the task statistics. */
    method CreateTask(universalTask: bool, queueId: int, isHighPriority: bool, opaqueData: nat) returns (t: TaskRef)
      modifies this
      ensures t == old(nextTask) && nextTask == t + 1 && draining == old(draining)
      ensures Snapshot() == NewTask(old(Snapshot()), t, universalTask, queueId, isHighPriority, opaqueData)
    {
      t := nextTask;
      nextTask := nextTask + 1;
      tasks := tasks[t := Task(universalTask, [], 0, queueId, isHighPriority, opaqueData)];
      taskStats := IncrementPending(IncrementPosted(taskStats));
    }

    /** enqueueSingle: after the guards, join the key's FIFO and post at once if it was empty. */
    method EnqueueSingle(k: K, queueId: int, isHighPriority: bool, opaqueData: nat) returns (r: Outcome<TaskRef>)
      requires Valid()
      modifies this
      ensures Valid() && draining == old(draining)
      ensures var g := EnqueueGuard(flavour, draining, queueId);
        if g.Some? then r == Throw(g.value) && Snapshot() == old(Snapshot()) && nextTask == old(nextTask)
        else r == Ok(old(nextTask)) && nextTask == old(nextTask) + 1 &&
             Snapshot() == Enqueue(old(Snapshot()), r.value, [k], queueId, isHighPriority, opaqueData) &&
             (r.value in posted <==> Free(old(Snapshot()), k))
    {
      var g := EnqueueGuard(flavour, draining, queueId);
      if g.Some? {
        return Throw(g.value);
      }
      ghost var s0 := Snapshot();
      var t := CreateTask(false, queueId, isHighPriority, opaqueData);
      ghost var s1 := Snapshot();
      var empty := AddPendingKeyed(k, t);
      assert AddKeys(s1, t, [k]) == (Snapshot(), empty) by {
        assert [k][1..] == [];
      }
      if empty {
        ScheduleTask(t);
      }
      r := Ok(t);
      assert Snapshot() == Enqueue(s0, t, [k], queueId, isHighPriority, opaqueData);
      assert t !in s0.tasks;
      EnqueueSingleKeeps(s0, t, k, queueId, isHighPriority, opaqueData);
    }

    /** enqueueMultiple: after the guards, join the FIFO of every key; post at once if every one was empty. */
    method EnqueueMultiple(ks: seq<K>, queueId: int, isHighPriority: bool, opaqueData: nat) returns (r: Outcome<TaskRef>)
      requires Valid()
      modifies this
      ensures Valid() && draining == old(draining)
      ensures var g := EnqueueGuard(flavour, draining, queueId);
        if g.Some? then r == Throw(g.value) && Snapshot() == old(Snapshot()) && nextTask == old(nextTask)
        else r == Ok(old(nextTask)) && nextTask == old(nextTask) + 1 &&
             Snapshot() == Enqueue(old(Snapshot()), r.value, ks, queueId, isHighPriority, opaqueData) &&
             (r.value in posted <==> forall k | k in ks :: Free(old(Snapshot()), k))
    {
      var g := EnqueueGuard(flavour, draining, queueId);
      if g.Some? {
        return Throw(g.value);
      }
      ghost var s0 := Snapshot();
      var t := CreateTask(false, queueId, isHighPriority, opaqueData);
      var canSchedule := AddPendingKeys(t, ks);
      if canSchedule {
        ScheduleTask(t);
      }
      r := Ok(t);
      EnqueueKeeps(s0, t, ks, queueId, isHighPriority, opaqueData);
      EnqueueDomain(s0, t, ks, queueId, isHighPriority, opaqueData);
      EnqueuePostsIffFree(s0, t, ks, queueId, isHighPriority, opaqueData);
    }

    /** enqueueAllImpl: after the guards, join the universal FIFO and the FIFO of every existing key (in map order);
        post at once if all of them were empty. */
    method EnqueueAllImpl(order: seq<K>, queueId: int, isHighPriority: bool, opaqueData: nat) returns (r: Outcome<TaskRef>)
      requires Valid() && Enumerates(Snapshot(), order)
      modifies this
      ensures Valid() && draining == old(draining)
      ensures var g := EnqueueGuard(flavour, draining, queueId);
        if g.Some? then r == Throw(g.value) && Snapshot() == old(Snapshot()) && nextTask == old(nextTask)
        else r == Ok(old(nextTask)) && nextTask == old(nextTask) + 1 &&
             Snapshot() == EnqueueAll(old(Snapshot()), r.value, order, queueId, isHighPriority, opaqueData) &&
             UniversalPlaced(Snapshot(), r.value) &&
             (r.value in posted <==> forall q | q in Names(old(Snapshot())) :: |Queue(old(Snapshot()), q)| == 0)
    {
      var g := EnqueueGuard(flavour, draining, queueId);
      if g.Some? {
        return Throw(g.value);
      }
      ghost var s0 := Snapshot();
      var t := CreateTask(true, queueId, isHighPriority, opaqueData);
      var canSchedule := AddPendingUniversal(t);
      var joined := AddPendingKeys(t, order);
      if canSchedule && joined {
        ScheduleTask(t);
      }
      r := Ok(t);
      EnqueueAllKeeps(s0, t, order, queueId, isHighPriority, opaqueData);
      EnqueueAllDomain(s0, t, order, queueId, isHighPriority, opaqueData);
      EnqueueAllPostsIffIdle(s0, t, order, queueId, isHighPriority, opaqueData);
    }

    /** trimSequenceKeys: erase, in map order, every key whose FIFO is empty; return how many keys remain. */
    method TrimSequenceKeys(order: seq<K>) returns (n: nat)
      requires Enumerates(Snapshot(), order)
      modifies this
      ensures Snapshot() == Trim(old(Snapshot())) && n == |keys|
      ensures old(Valid()) ==> Valid()
      ensures nextTask == old(nextTask) && draining == old(draining)
    {
      ghost var s0 := Snapshot();
      ghost var visited: set<K> := {};
      var i := 0;
      while i < |order|
        invariant 0 <= i <= |order|
        invariant keys == TrimmedBy(s0.keys, visited)
        invariant forall j | i <= j < |order| :: order[j] !in visited
        invariant forall j | 0 <= j < i :: order[j] in visited
        invariant universal == old(universal) && tasks == old(tasks) && taskStats == old(taskStats)
        invariant posted == old(posted) && done == old(done)
        invariant nextTask == old(nextTask) && draining == old(draining)
      {
        var k := order[i];
        if |keys[k].tasks| == 0 {
          keys := keys - {k};
        }
        TrimmedByStep(s0.keys, visited, k);
        visited := visited + {k};
        i := i + 1;
      }
      assert keys == Trim(s0).keys by {
        assert forall k | k in s0.keys :: k in visited;
      }
      n := |keys|;
      if old(Valid()) {
        TrimKeeps(s0);
      }
    }

    /** getStatistics(key): the key's counters, or fresh zero counters for a key without a FIFO. */
    method GetStatistics(k: K) returns (c: Counters)
      ensures k in keys ==> c == keys[k].stats
      ensures k !in keys ==> c == NewCounters()
    {
      c := if k in keys then keys[k].stats else NewCounters();
    }

    /** getStatistics(): the universal key's counters. */
    method GetUniversalStatistics() returns (c: Counters)
      ensures c == universal.stats
    {
      c := universal.stats;
    }

    /** getTaskStatistics */
    method GetTaskStatistics() returns (c: Counters)
      ensures c == taskStats
    {
      c := taskStats;
    }

    /** getSequenceKeyCount */
    method GetSequenceKeyCount() returns (n: nat)
      ensures n == |keys|
    {
      n := |keys|;
    }

    /** drain: enqueue a universal task, then keep the sequencer disabled while waiting for it; a final drain leaves it
        disabled. `ready` is whether the task ran within the timeout. */
    method Drain(order: seq<K>, isFinal: bool, ready: bool) returns (r: Outcome<bool>)
      requires Valid() && Enumerates(Snapshot(), order)
      modifies this
      ensures Valid()
      ensures var g := EnqueueGuard(flavour, old(draining), ANY);
        if g.Some? then r == Throw(g.value) && Snapshot() == old(Snapshot()) && draining == old(draining)
        else r == Ok(ready) && draining == isFinal &&
             Snapshot() == EnqueueAll(old(Snapshot()), old(nextTask), order, ANY, false, 0)
    {
      var e := EnqueueAllImpl(order, ANY, false, 0);
      if e.Throw? {
        return Throw(e.failure);
      }
      draining := true;
      r := Ok(ready);
      if !isFinal {
        draining := false;
      }
    }
  }
}
