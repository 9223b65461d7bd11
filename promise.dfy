// Promise<T> of quantum_promise_impl.h: the producer end of a shared state.
//
// A promise holds a shared pointer to its shared state, which is null only
// after the promise has been moved from; every operation then throws NoState.
module Promises {
  import opened Wrappers
  import opened FutureStates
  import opened SharedStates

  /** The observable value of a promise: its shared cell, if any, and the terminated flag. */
  datatype PromiseView<T> = PromiseView(cell: Option<Cell<T>>, terminated: bool)

  /** terminate: only the first call acts, and it breaks a pending promise. */
  function TerminateView<T>(p: PromiseView<T>): PromiseView<T>
  {
    if p.terminated then p
    else PromiseView(if p.cell.Some? then Some(BreakPromiseCell(p.cell.value)) else None, true)
  }

  /** set through the promise: NoState without a shared state. */
  function SetView<T>(p: PromiseView<T>, v: T): (PromiseView<T>, Outcome<int>)
  {
    if p.cell.None? then (p, Throw(FutureError(NoState)))
    else
      var (c, r) := SetCell(p.cell.value, v);
      (p.(cell := Some(c)), r)
  }

  function SetExceptionView<T>(p: PromiseView<T>, ex: ExceptionPtr): (PromiseView<T>, Outcome<int>)
  {
    if p.cell.None? then (p, Throw(FutureError(NoState)))
    else
      var (c, rc) := SetExceptionCell(p.cell.value, ex);
      (p.(cell := Some(c)), Ok(rc))
  }

  lemma TerminateIdempotent<T>(p: PromiseView<T>)
    ensures TerminateView(p).terminated
    ensures TerminateView(TerminateView(p)) == TerminateView(p)
    ensures p.terminated ==> TerminateView(p) == p
  {
  }

  /** The first terminate breaks a pending promise; a later set then throws BrokenPromise. */
  lemma TerminateBreaksPending<T>(p: PromiseView<T>, v: T)
    requires !p.terminated && p.cell.Some? && p.cell.value.state == PromiseNotSatisfied
    ensures TerminateView(p).cell.value.state == BrokenPromise
    ensures SetView(TerminateView(p), v).1 == Throw(FutureError(BrokenPromise))
  {
  }

  /** Terminating after the value was set leaves the value in place. */
  lemma TerminateKeepsSatisfied<T>(p: PromiseView<T>)
    requires p.cell.Some? && p.cell.value.state != PromiseNotSatisfied
    ensures TerminateView(p).cell == p.cell
  {
  }

  lemma NoStateThrows<T>(p: PromiseView<T>, v: T, ex: ExceptionPtr)
    requires p.cell.None?
    ensures SetView(p, v) == (p, Throw(FutureError(NoState)))
    ensures SetExceptionView(p, ex) == (p, Throw(FutureError(NoState)))
  {
  }

  /** Future<T>: a consumer handle on the same shared state as its promise. */
  class Future<T> {
    const sharedState: SharedState?<T>

    constructor (s: SharedState?<T>)
      ensures sharedState == s
    {
      sharedState := s;
    }

    predicate IsValid()
      reads this
    {
      sharedState != null
    }
  }

  class Promise<T> {
    var sharedState: SharedState?<T>
    var terminated: bool

    function View(): PromiseView<T>
      reads this, sharedState
    {
      PromiseView(if sharedState == null then None else Some(sharedState.Snapshot()), terminated)
    }

    ghost predicate Valid()
      reads this, sharedState
    {
      sharedState != null ==> sharedState.Valid()
    }

    constructor ()
      ensures Valid() && fresh(sharedState) && View() == PromiseView(Some(NewCell()), false)
    {
      sharedState := new SharedState();
      terminated := false;
    }

    /** The move constructor: takes the shared state and copies the flag; `other` is left without a state. */
    constructor Moved(other: Promise<T>)
      requires other.Valid()
      modifies other
      ensures Valid() && sharedState == old(other.sharedState) && terminated == old(other.terminated)
      ensures other.sharedState == null && other.terminated == old(other.terminated)
    {
      sharedState := other.sharedState;
      terminated := other.terminated;
      new;
      other.sharedState := null;
    }

    method Terminate()
      requires Valid()
      modifies this, sharedState
      ensures Valid() && sharedState == old(sharedState)
      ensures View() == TerminateView(old(View()))
    {
      if !terminated {
        terminated := true;
        if sharedState != null {
          sharedState.BreakPromise();
        }
      }
    }

    method IsValid() returns (r: bool)
      ensures r <==> sharedState != null
    {
      r := sharedState != null;
    }

    method Set(v: T) returns (r: Outcome<int>)
      requires Valid()
      modifies sharedState
      ensures Valid()
      ensures (View(), r) == SetView(old(View()), v)
    {
      if sharedState == null {
        return Throw(FutureError(NoState));
      }
      r := sharedState.Set(v);
    }

    method SetException(ex: ExceptionPtr) returns (r: Outcome<int>)
      requires Valid()
      modifies sharedState
      ensures Valid()
      ensures (View(), r) == SetExceptionView(old(View()), ex)
    {
      if sharedState == null {
        return Throw(FutureError(NoState));
      }
      var rc := sharedState.SetException(ex);
      r := Ok(rc);
    }

    /** getIThreadFuture / getICoroFuture / getI*FutureBase: a new future on the same shared state. */
    method GetFuture() returns (r: Outcome<Future<T>>)
      ensures r.Throw? <==> sharedState == null
      ensures r.Throw? ==> r.failure == FutureError(NoState)
      ensures r.Ok? ==> fresh(r.value) && r.value.sharedState == sharedState
    {
      if sharedState == null {
        return Throw(FutureError(NoState));
      }
      var f := new Future(sharedState);
      r := Ok(f);
    }
  }

  /** Promise<Buffer<T>>: the same guards in front of a buffered shared state. */
  class BufferPromise<T> {
    var sharedState: BufferedSharedState?<T>
    var terminated: bool

    ghost predicate Valid()
      reads this, sharedState
      reads if sharedState == null then {} else {sharedState.writer, sharedState.reader}
    {
      sharedState != null ==> sharedState.Valid()
    }

    constructor ()
      ensures Valid() && fresh(sharedState) && !terminated
      ensures sharedState.Snapshot() == NewBufferedCell()
    {
      sharedState := new BufferedSharedState();
      terminated := false;
    }

    method Terminate()
      requires Valid()
      modifies this, sharedState
      ensures Valid() && sharedState == old(sharedState) && terminated
      ensures old(terminated) ==> sharedState == null || sharedState.Snapshot() == old(sharedState.Snapshot())
      ensures !old(terminated) && sharedState != null ==>
                sharedState.Snapshot() == BreakBuffered(old(sharedState.Snapshot()))
    {
      if !terminated {
        terminated := true;
        if sharedState != null {
          sharedState.BreakPromise();
        }
      }
    }

    method Push(v: T) returns (r: Outcome<()>)
      requires Valid()
      modifies if sharedState == null then {} else {sharedState, sharedState.writer}
      ensures Valid()
      ensures sharedState == null ==> r == Throw(FutureError(NoState))
      ensures sharedState != null ==> (sharedState.Snapshot(), r) == PushBuffered(old(sharedState.Snapshot()), v)
    {
      if sharedState == null {
        return Throw(FutureError(NoState));
      }
      r := sharedState.Push(v);
    }

    method CloseBuffer() returns (r: Outcome<int>)
      requires Valid()
      modifies if sharedState == null then {} else {sharedState, sharedState.writer}
      ensures Valid()
      ensures sharedState == null ==> r == Throw(FutureError(NoState))
      ensures sharedState != null ==> (sharedState.Snapshot(), r) == (CloseBuffered(old(sharedState.Snapshot())).0, Ok(0))
    {
      if sharedState == null {
        return Throw(FutureError(NoState));
      }
      var rc := sharedState.CloseBuffer();
      r := Ok(rc);
    }
  }
}
