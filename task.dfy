// Task of quantum_task_impl.h: a coroutine with a suspension state, a type
// and its place in a continuation chain (a shared `_next` link forward and a
// weak `_prev` link back).
//
// The shared tasks are values in a table keyed by reference; a link is the
// reference of the linked task.
module Tasks {
  import opened Wrappers

  /** ITask::Type. */
  datatype TaskType = Standalone | First | Continuation | ErrorHandler | Final | Termination | IO

  /** std::numeric_limits<int>::max(). */
  const INT_MAX: int := 0x7FFF_FFFF

  /** ITask::RetCode. */
  const SUCCESS: int := 0
  const RUNNING: int := INT_MAX
  const ALREADY_RESUMED: int := INT_MAX - 1
  const EXCEPTION: int := INT_MAX - 2
  const NOT_CALLABLE: int := INT_MAX - 3
  const BLOCKED: int := INT_MAX - 4
  const SLEEPING: int := INT_MAX - 5
  const MAX_RC: int := INT_MAX - 10

  /** Task::State, held in the atomic `_suspendedState`. */
  datatype RunState = Running | Suspended | Terminated

  /** What the coroutine did when it was resumed: its return code and whether its body ran to the end. */
  datatype Resumption = Resumption(rc: int, finished: bool)

  /**
   * run: a SuspensionGuard claims Suspended -> Running (or reports
   * AlreadyResumed), then the not-callable, blocked and sleeping checks come
   * before the coroutine is resumed; the guard puts Suspended back unless the
   * coroutine finished, in which case the state becomes Terminated.
   */
  function Run(state: RunState, callable: bool, blocked: bool, sleeping: bool, resumed: Resumption): (RunState, int)
  {
    if state != Suspended then (state, ALREADY_RESUMED)
    else if !callable then (Suspended, NOT_CALLABLE)
    else if blocked then (Suspended, BLOCKED)
    else if sleeping then (Suspended, SLEEPING)
    else (if resumed.finished then Terminated else Suspended, resumed.rc)
  }

  /**
   * The return codes come in the order the checks are made, the coroutine
   * is resumed only from Suspended with none of the checks failing, and a run
   * never leaves the task Running.
   */
  lemma RunSpec(state: RunState, callable: bool, blocked: bool, sleeping: bool, resumed: Resumption)
    ensures var (s, rc) := Run(state, callable, blocked, sleeping, resumed);
            (state != Suspended ==> s == state && rc == ALREADY_RESUMED) &&
            (state == Suspended && !callable ==> s == Suspended && rc == NOT_CALLABLE) &&
            (state == Suspended && callable && blocked ==> s == Suspended && rc == BLOCKED) &&
            (state == Suspended && callable && !blocked && sleeping ==> s == Suspended && rc == SLEEPING) &&
            (state == Suspended && callable && !blocked && !sleeping ==> rc == resumed.rc && (s == Terminated <==> resumed.finished)) &&
            (state != Running ==> s != Running)
  {
  }

  /** The reserved return codes are distinct and all above RetCode::Max; Success is below it. */
  lemma RetCodesReserved()
    ensures SUCCESS < MAX_RC
    ensures forall c | c in [RUNNING, ALREADY_RESUMED, EXCEPTION, NOT_CALLABLE, BLOCKED, SLEEPING] :: MAX_RC < c <= INT_MAX
    ensures |{RUNNING, ALREADY_RESUMED, EXCEPTION, NOT_CALLABLE, BLOCKED, SLEEPING}| == 6
  {
  }

  /** Once its coroutine has finished, a task only ever answers AlreadyResumed. */
  lemma FinishedTaskStaysResumed(callable: bool, blocked: bool, sleeping: bool, resumed: Resumption)
    ensures Run(Terminated, callable, blocked, sleeping, resumed) == (Terminated, ALREADY_RESUMED)
  {
  }

  /** Reference to a task shared between queues and chains. */
  type TaskRef = nat

  datatype Node = Node(
    kind: TaskType,
    highPriority: bool,
    terminated: bool,
    next: Option<TaskRef>,
    prev: Option<TaskRef>)

  type TaskTable = map<TaskRef, Node>

  /** terminate: the first call sets the flag and reports that the context is to be terminated; later calls do nothing. */
  function Terminate(n: Node): (r: (Node, bool))
    ensures r.0 == n.(terminated := true)
    ensures r.1 <==> !n.terminated
  {
    if n.terminated then (n, false) else (n.(terminated := true), true)
  }

  /** Terminating twice is terminating once. */
  lemma TerminateOnce(n: Node)
    ensures Terminate(Terminate(n).0).0 == Terminate(n).0
    ensures !Terminate(Terminate(n).0).1
  {
  }

  /** A forward chain: distinct tasks, each one's `_next` the following one, the last without a successor. */
  predicate IsChain(tasks: TaskTable, path: seq<TaskRef>)
  {
    |path| >= 1 &&
    (forall k | 0 <= k < |path| :: path[k] in tasks) &&
    (forall i, j | 0 <= i < j < |path| :: path[i] != path[j]) &&
    (forall k | 0 <= k < |path| - 1 :: tasks[path[k]].next == Some(path[k + 1])) &&
    tasks[path[|path| - 1]].next.None?
  }

  /** A backward chain: distinct tasks, each one's `_prev` the following one. */
  predicate IsBackChain(tasks: TaskTable, back: seq<TaskRef>)
  {
    |back| >= 1 &&
    (forall k | 0 <= k < |back| :: back[k] in tasks) &&
    (forall k | 0 <= k < |back| - 1 :: tasks[back[k]].prev == Some(back[k + 1]))
  }

  predicate HasFirst(tasks: TaskTable, back: seq<TaskRef>)
    requires IsBackChain(tasks, back)
  {
    exists k | 0 <= k < |back| :: tasks[back[k]].kind == First
  }

  /** getFirstTask: the task itself if it is First, else its predecessor's first task. */
  function GetFirstTask(tasks: TaskTable, back: seq<TaskRef>): TaskRef
    requires IsBackChain(tasks, back) && HasFirst(tasks, back)
    decreases |back|
  {
    if tasks[back[0]].kind == First then back[0]
    else
      var k :| 0 <= k < |back| && tasks[back[k]].kind == First;
      assert tasks[back[1..][k - 1]].kind == First;
      GetFirstTask(tasks, back[1..])
  }

  /** getFirstTask walks back to the nearest First task and passes no other First. */
  lemma {:induction false} GetFirstTaskSpec(tasks: TaskTable, back: seq<TaskRef>)
    requires IsBackChain(tasks, back) && HasFirst(tasks, back)
    ensures exists k | 0 <= k < |back| ::
              GetFirstTask(tasks, back) == back[k] && tasks[back[k]].kind == First &&
              forall i | 0 <= i < k :: tasks[back[i]].kind != First
    decreases |back|
  {
    if tasks[back[0]].kind != First {
      var k :| 0 <= k < |back| && tasks[back[k]].kind == First;
      assert tasks[back[1..][k - 1]].kind == First;
      GetFirstTaskSpec(tasks, back[1..]);
      var j :| 0 <= j < |back| - 1 && GetFirstTask(tasks, back[1..]) == back[1..][j] && tasks[back[1..][j]].kind == First &&
               forall i | 0 <= i < j :: tasks[back[1..][i]].kind != First;
      assert GetFirstTask(tasks, back) == back[j + 1];
      forall i | 0 <= i < j + 1
        ensures tasks[back[i]].kind != First
      {
        if i > 0 {
          assert back[i] == back[1..][i - 1];
        }
      }
    }
  }

  predicate IsHandler(kind: TaskType)
  {
    kind == ErrorHandler || kind == Final
  }

  /**
   * getErrorHandlerOrFinalTask: the task itself if it is an error handler or
   * a final task, otherwise whatever its successor finds.
   */
  function GetErrorHandlerOrFinalTask(tasks: TaskTable, path: seq<TaskRef>): (r: (Option<TaskRef>, TaskTable))
    requires IsChain(tasks, path)
    ensures r.1.Keys == tasks.Keys && (r.0.Some? ==> r.0.value in tasks)
    decreases |path|, 1
  {
    if IsHandler(tasks[path[0]].kind) then (Some(path[0]), tasks)
    else SearchSuccessors(tasks, path)
  }

  /**
   * The successor branch of getErrorHandlerOrFinalTask: null at the chain's
   * end; otherwise the successor's answer, and a successor that is not itself
   * a handler is terminated and released from the chain.
   */
  function SearchSuccessors(tasks: TaskTable, path: seq<TaskRef>): (r: (Option<TaskRef>, TaskTable))
    requires IsChain(tasks, path)
    ensures r.1.Keys == tasks.Keys && (r.0.Some? ==> r.0.value in tasks)
    decreases |path|, 0
  {
    if |path| == 1 then (None, tasks)
    else
      var (found, ts) := GetErrorHandlerOrFinalTask(tasks, path[1..]);
      (found, Release(tasks, ts, path))
  }

  /** After the successor's search: a successor that is not a handler is terminated and this task's link to it reset. */
  function Release(tasks: TaskTable, ts: TaskTable, path: seq<TaskRef>): (r: TaskTable)
    requires IsChain(tasks, path) && |path| > 1 && ts.Keys == tasks.Keys
    ensures r.Keys == tasks.Keys
  {
    var n := path[1];
    if IsHandler(tasks[n].kind) then ts
    else ts[n := ts[n].(terminated := true)][path[0] := ts[path[0]].(next := None)]
  }

  /** Index of the first handler on the chain from `from` on, or |path| if there is none. */
  function FirstHandler(tasks: TaskTable, path: seq<TaskRef>, from: nat): (j: nat)
    requires IsChain(tasks, path) && from <= |path|
    ensures from <= j <= |path|
    ensures j < |path| ==> IsHandler(tasks[path[j]].kind)
    ensures forall k | from <= k < j :: !IsHandler(tasks[path[k]].kind)
    decreases |path| - from
  {
    if from == |path| || IsHandler(tasks[path[from]].kind) then from else FirstHandler(tasks, path, from + 1)
  }

  /**
   * The table after a search from path[0] that stops at index e (the
   * handler found, or |path| when there is none): the tasks strictly between
   * are terminated, each skipped task's link is cut, and nothing else changes.
   */
  predicate SkippedAndUnlinked(tasks: TaskTable, ts: TaskTable, path: seq<TaskRef>, e: nat)
    requires IsChain(tasks, path)
  {
    ts.Keys == tasks.Keys &&
    (forall x | x in tasks && x !in path :: ts[x] == tasks[x]) &&
    forall k | 0 <= k < |path| ::
      ts[path[k]] == tasks[path[k]].(terminated := tasks[path[k]].terminated || 1 <= k < e,
                                     next := if k + 1 < e then None else tasks[path[k]].next)
  }

  /**
   * getErrorHandlerOrFinalTask returns the first error handler or final task
   * on the chain (null when there is none), terminates every non-handler
   * successor it skips, and cuts the links it walked across.
   */
  lemma {:induction false} GetErrorHandlerOrFinalTaskSpec(tasks: TaskTable, path: seq<TaskRef>)
    requires IsChain(tasks, path)
    ensures var (found, ts) := GetErrorHandlerOrFinalTask(tasks, path);
            var j := FirstHandler(tasks, path, 0);
            found == (if j < |path| then Some(path[j]) else None) &&
            SkippedAndUnlinked(tasks, ts, path, j)
    decreases |path|, 1
  {
    if !IsHandler(tasks[path[0]].kind) {
      SearchSuccessorsSpec(tasks, path);
    }
  }

  /** The successor search: as above, but path[0] is never itself the answer. */
  lemma {:induction false} SearchSuccessorsSpec(tasks: TaskTable, path: seq<TaskRef>)
    requires IsChain(tasks, path)
    ensures var (found, ts) := SearchSuccessors(tasks, path);
            var j := FirstHandler(tasks, path, 1);
            found == (if j < |path| then Some(path[j]) else None) &&
            SkippedAndUnlinked(tasks, ts, path, j)
    decreases |path|, 0
  {
    if |path| > 1 {
      var tail := path[1..];
      assert IsChain(tasks, tail);
      GetErrorHandlerOrFinalTaskSpec(tasks, tail);
      var (found, ts) := GetErrorHandlerOrFinalTask(tasks, tail);
      FirstHandlerShift(tasks, path, 0);
      ReleaseSpec(tasks, ts, path, FirstHandler(tasks, tail, 0));
    }
  }

  /** Releasing the successor turns the successor's search result into this task's. */
  lemma ReleaseSpec(tasks: TaskTable, ts: TaskTable, path: seq<TaskRef>, j0: nat)
    requires IsChain(tasks, path) && |path| > 1 && IsChain(tasks, path[1..])
    requires j0 <= |path| - 1 && (j0 == 0 <==> IsHandler(tasks[path[1]].kind))
    requires SkippedAndUnlinked(tasks, ts, path[1..], j0)
    ensures SkippedAndUnlinked(tasks, Release(tasks, ts, path), path, j0 + 1)
  {
    var tail := path[1..];
    assert path[0] !in tail;
    if IsHandler(tasks[path[1]].kind) {
      ReleaseAtHandler(tasks, ts, path);
    } else {
      ReleaseSkipping(tasks, ts, path, j0);
    }
  }

  /** ReleaseSpec when the successor is itself the handler: nothing is released. */
  lemma ReleaseAtHandler(tasks: TaskTable, ts: TaskTable, path: seq<TaskRef>)
    requires IsChain(tasks, path) && |path| > 1 && IsChain(tasks, path[1..]) && path[0] !in path[1..]
    requires IsHandler(tasks[path[1]].kind)
    requires SkippedAndUnlinked(tasks, ts, path[1..], 0)
    ensures SkippedAndUnlinked(tasks, Release(tasks, ts, path), path, 1)
  {
    var tail := path[1..];
    assert Release(tasks, ts, path) == ts;
    forall x | x in tasks && x !in path
      ensures ts[x] == tasks[x]
    {
      assert x !in tail;
    }
    forall k | 0 <= k < |path|
      ensures ts[path[k]] == tasks[path[k]].(terminated := tasks[path[k]].terminated || 1 <= k < 1,
                                             next := if k + 1 < 1 then None else tasks[path[k]].next)
    {
      if k > 0 {
        assert path[k] == tail[k - 1];
      }
    }
  }

  /** ReleaseSpec when the successor is skipped: it is terminated and the link to it is cut. */
  lemma ReleaseSkipping(tasks: TaskTable, ts: TaskTable, path: seq<TaskRef>, j0: nat)
    requires IsChain(tasks, path) && |path| > 1 && IsChain(tasks, path[1..]) && path[0] !in path[1..]
    requires 1 <= j0 <= |path| - 1 && !IsHandler(tasks[path[1]].kind)
    requires SkippedAndUnlinked(tasks, ts, path[1..], j0)
    ensures SkippedAndUnlinked(tasks, Release(tasks, ts, path), path, j0 + 1)
  {
    var tail := path[1..];
    var n := path[1];
    var r := ts[n := ts[n].(terminated := true)][path[0] := ts[path[0]].(next := None)];
    assert Release(tasks, ts, path) == r;
    forall x | x in tasks && x !in path
      ensures r[x] == tasks[x]
    {
      assert x !in tail;
    }
    forall k | 0 <= k < |path|
      ensures r[path[k]] == tasks[path[k]].(terminated := tasks[path[k]].terminated || 1 <= k < j0 + 1,
                                            next := if k + 1 < j0 + 1 then None else tasks[path[k]].next)
    {
      if k > 0 {
        assert path[k] == tail[k - 1];
        assert path[k] != path[0];
      }
    }
  }

  lemma {:induction false} FirstHandlerShift(tasks: TaskTable, path: seq<TaskRef>, from: nat)
    requires IsChain(tasks, path) && |path| > 1 && IsChain(tasks, path[1..]) && from < |path|
    ensures FirstHandler(tasks, path, from + 1) == FirstHandler(tasks, path[1..], from) + 1
    decreases |path| - from
  {
    if from + 1 < |path| {
      assert path[1..][from] == path[from + 1];
      if !IsHandler(tasks[path[from + 1]].kind) {
        FirstHandlerShift(tasks, path, from + 1);
      }
    }
  }

  /**
   * The successor search on its own never answers the task it starts from:
   * the task to run after a failing task is a handler further down the chain.
   */
  lemma SearchNeverReturnsItself(tasks: TaskTable, path: seq<TaskRef>)
    requires IsChain(tasks, path)
    ensures SearchSuccessors(tasks, path).0 != Some(path[0])
    ensures SearchSuccessors(tasks, path).0.None? ||
            exists k | 1 <= k < |path| :: SearchSuccessors(tasks, path).0 == Some(path[k]) && IsHandler(tasks[path[k]].kind)
  {
    SearchSuccessorsSpec(tasks, path);
  }
}
