// Task-state tracking of quantum_task_state_handler_impl.h: which
// state changes a task may make, and when the user's state handler is told.
module TaskStateHandling {
  import opened Wrappers
  import opened Auxiliary

  // TaskState enumerators (an `enum class : int` of bit flags).
  const NONE: int := 0
  const INITIALIZED: int := 1
  const STARTED: int := 2
  const SUSPENDED: int := 4
  const RESUMED: int := 8
  const STOPPED: int := 16
  const ALL: int := 31

  // TaskType enumerators.
  const TYPE_NONE: int := 0
  const TYPE_COROUTINE: int := 1
  const TYPE_IO_TASK: int := 2

  /** The allowed (current, next) pairs, as the task life cycle draws them. */
  const TRANSITIONS: set<(int, int)> :=
    {(INITIALIZED, STARTED), (STARTED, SUSPENDED), (RESUMED, SUSPENDED),
     (SUSPENDED, RESUMED), (STARTED, STOPPED), (RESUMED, STOPPED)}

  /** isValidTaskStateOrded: a switch on the next state. */
  function IsValidTaskStateOrdered(current: int, next: int): bool
  {
    if next == STARTED then current == INITIALIZED
    else if next == SUSPENDED then current == STARTED || current == RESUMED
    else if next == RESUMED then current == SUSPENDED
    else if next == STOPPED then current == STARTED || current == RESUMED
    else false
  }

  /** The switch accepts exactly the life-cycle transitions. */
  lemma ValidIffLifeCycle(current: int, next: int)
    ensures IsValidTaskStateOrdered(current, next) <==> (current, next) in TRANSITIONS
  {
  }

  /** Nothing moves a task into Initialized or None, and nothing leaves Stopped. */
  lemma NoTransitionIntoStartOrOutOfStopped(current: int, next: int)
    ensures !IsValidTaskStateOrdered(current, INITIALIZED)
    ensures !IsValidTaskStateOrdered(current, NONE)
    ensures !IsValidTaskStateOrdered(STOPPED, next)
  {
  }

  /** The arguments the handler is called with (task id, queue id, task type, new state). */
  datatype HandlerCall = HandlerCall(taskId: nat, queueId: int, taskType: int, state: int)

  /** What handleTaskState leaves behind: the currentState out-parameter and the handler call, if any. */
  datatype Handled = Handled(currentState: int, call: Option<HandlerCall>)

  /** handleTaskState; hasHandler says whether the std::function is non-empty. */
  function HandleTaskState(hasHandler: bool, taskId: nat, queueId: int, handledType: int,
                           handledStates: int, next: int, current: int): (r: Handled)
    ensures !IsValidTaskStateOrdered(current, next) ==> r.currentState == current && r.call.None?
    ensures IsValidTaskStateOrdered(current, next) ==> r.currentState == next
    ensures r.call.Some? <==>
              IsValidTaskStateOrdered(current, next) && hasHandler && IsIntersection(handledStates, next)
    ensures r.call.Some? ==> r.call.value == HandlerCall(taskId, queueId, handledType, next)
  {
    if !IsValidTaskStateOrdered(current, next) then Handled(current, None)
    else if !hasHandler then Handled(next, None)
    else if !IsIntersection(handledStates, next) then Handled(next, None)
    else Handled(next, Some(HandlerCall(taskId, queueId, handledType, next)))
  }

  /** A fixed handler configuration applied to one task. */
  datatype Config = Config(hasHandler: bool, taskId: nat, queueId: int, taskType: int, handledStates: int)

  function Step(cfg: Config, next: int, current: int): Handled
  {
    HandleTaskState(cfg.hasHandler, cfg.taskId, cfg.queueId, cfg.taskType, cfg.handledStates, next, current)
  }

  /** The state after a series of handleTaskState calls. */
  function Replay(cfg: Config, current: int, nexts: seq<int>): int
    decreases |nexts|
  {
    if nexts == [] then current else Replay(cfg, Step(cfg, nexts[0], current).currentState, nexts[1..])
  }

  /** The states a task actually moved into during the series. */
  function Changes(cfg: Config, current: int, nexts: seq<int>): seq<int>
    decreases |nexts|
  {
    if nexts == [] then []
    else
      var h := Step(cfg, nexts[0], current);
      (if IsValidTaskStateOrdered(current, nexts[0]) then [nexts[0]] else []) + Changes(cfg, h.currentState, nexts[1..])
  }

  /** The states reported to the handler during the series. */
  function Reported(cfg: Config, current: int, nexts: seq<int>): seq<int>
    decreases |nexts|
  {
    if nexts == [] then []
    else
      var h := Step(cfg, nexts[0], current);
      (if h.call.Some? then [h.call.value.state] else []) + Reported(cfg, h.currentState, nexts[1..])
  }

  /** Each state follows the one before it (the first follows `from`) along the life cycle. */
  predicate Ordered(from: int, states: seq<int>)
    decreases |states|
  {
    states == [] || ((from, states[0]) in TRANSITIONS && Ordered(states[0], states[1..]))
  }

  /** The states a handler of this configuration is told about, out of a series taken. */
  function Notified(cfg: Config, states: seq<int>): seq<int>
  {
    if cfg.hasHandler then Filter(states, cfg.handledStates) else []
  }

  /** The states of a series that intersect the handled states. */
  function Filter(states: seq<int>, handledStates: int): seq<int>
    decreases |states|
  {
    if states == [] then []
    else (if IsIntersection(handledStates, states[0]) then [states[0]] else []) + Filter(states[1..], handledStates)
  }

  /**
   * Over any series of requested states, the states taken follow the life
   * cycle, the last of them is the final state, and the handler sees
   * exactly those that intersect the handled states (none without a handler).
   */
  lemma {:induction false} ReplaySpec(cfg: Config, current: int, nexts: seq<int>)
    ensures Ordered(current, Changes(cfg, current, nexts))
    ensures Replay(cfg, current, nexts) ==
              (if Changes(cfg, current, nexts) == [] then current else Last(Changes(cfg, current, nexts)))
    ensures Reported(cfg, current, nexts) == Notified(cfg, Changes(cfg, current, nexts))
    decreases |nexts|
  {
    if nexts != [] {
      var h := Step(cfg, nexts[0], current);
      ReplaySpec(cfg, h.currentState, nexts[1..]);
      var rest := Changes(cfg, h.currentState, nexts[1..]);
      if IsValidTaskStateOrdered(current, nexts[0]) {
        ValidIffLifeCycle(current, nexts[0]);
        var c := [nexts[0]] + rest;
        assert Changes(cfg, current, nexts) == c && h.currentState == nexts[0];
        assert c[0] == nexts[0] && c[1..] == rest;
        assert (current, c[0]) in TRANSITIONS && Ordered(c[0], c[1..]);
        if rest != [] {
          assert Last(c) == Last(rest);
        }
        if cfg.hasHandler {
          assert Filter(c, cfg.handledStates) ==
                   (if IsIntersection(cfg.handledStates, nexts[0]) then [nexts[0]] else []) + Filter(rest, cfg.handledStates);
        }
      } else {
        assert Changes(cfg, current, nexts) == [] + rest == rest;
      }
    }
  }

  function Last(s: seq<int>): int
    requires s != []
  {
    s[|s| - 1]
  }

  /** A task that reaches Stopped stays there whatever is requested next. */
  lemma {:induction false} StoppedStays(cfg: Config, nexts: seq<int>)
    ensures Replay(cfg, STOPPED, nexts) == STOPPED
    ensures Changes(cfg, STOPPED, nexts) == []
    decreases |nexts|
  {
    if nexts != [] {
      NoTransitionIntoStartOrOutOfStopped(STOPPED, nexts[0]);
      StoppedStays(cfg, nexts[1..]);
    }
  }

  /** The usual life cycle of a coroutine that suspends once, reported to a handler of every state. */
  lemma CoroutineLifeCycle(taskId: nat, queueId: int)
    ensures var cfg := Config(true, taskId, queueId, TYPE_COROUTINE, ALL);
            Reported(cfg, INITIALIZED, [STARTED, SUSPENDED, RESUMED, STOPPED]) == [STARTED, SUSPENDED, RESUMED, STOPPED]
  {
    var cfg := Config(true, taskId, queueId, TYPE_COROUTINE, ALL);
    AllHandlesLifeCycle();
    ReportedOne(cfg, RESUMED, STOPPED, []);
    ReportedOne(cfg, SUSPENDED, RESUMED, [STOPPED]);
    ReportedOne(cfg, STARTED, SUSPENDED, [RESUMED, STOPPED]);
    ReportedOne(cfg, INITIALIZED, STARTED, [SUSPENDED, RESUMED, STOPPED]);
  }

  /** A handler of every state handles each state a coroutine passes through. */
  lemma AllHandlesLifeCycle()
    ensures IsIntersection(ALL, STARTED) && IsIntersection(ALL, SUSPENDED)
    ensures IsIntersection(ALL, RESUMED) && IsIntersection(ALL, STOPPED)
  {
  }

  /** A transition the handler is called for is reported, and the rest is reported from the new state. */
  lemma ReportedOne(cfg: Config, current: int, next: int, rest: seq<int>)
    requires Step(cfg, next, current) == Handled(next, Some(HandlerCall(cfg.taskId, cfg.queueId, cfg.taskType, next)))
    ensures Reported(cfg, current, [next] + rest) == [next] + Reported(cfg, next, rest)
  {
    assert ([next] + rest)[1..] == rest;
  }

}
