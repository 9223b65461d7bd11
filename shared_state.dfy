// SharedState<T> and SharedState<Buffer<T>> of quantum_shared_state_impl.h:
// the cell shared by a promise and its futures.
//
// The mutex and the condition variable are not modelled: an operation that
// blocks until "the state has changed" requires that condition instead.
module SharedStates {
  import opened Wrappers
  import opened FutureStates
  import opened Buffers

  /** std::future_status as returned by waitFor. */
  datatype FutureStatus = Ready | Timeout

  // ------------------------------------------------------------------
  // Single-value shared state
  // ------------------------------------------------------------------

  /** The state, the stored value (None: default-constructed or moved out) and the stored exception. */
  datatype Cell<T> = Cell(state: FutureState, value: Option<T>, exception: Option<ExceptionPtr>)

  function NewCell<T>(): Cell<T>
  {
    Cell(PromiseNotSatisfied, None, None)
  }

  /** The states a single-value cell can be in; a satisfied cell holds its value. */
  ghost predicate ValidCell<T>(c: Cell<T>)
  {
    c.state in {PromiseNotSatisfied, PromiseAlreadySatisfied, BrokenPromise, FutureAlreadyRetrieved} &&
    (c.state == PromiseAlreadySatisfied ==> c.value.Some?)
  }

  /** stateHasChanged: set, broken, consumed, or carrying an exception. */
  predicate StateHasChanged<T>(c: Cell<T>)
  {
    c.state != PromiseNotSatisfied || c.exception.Some?
  }

  /** checkPromiseState, shared by both specialisations: a stored exception wins over the state. */
  function CheckPromiseState(state: FutureState, exception: Option<ExceptionPtr>): Outcome<()>
  {
    if exception.Some? then Throw(UserException(exception.value))
    else if state == BrokenPromise || state == FutureAlreadyRetrieved then Throw(FutureError(state))
    else Ok(())
  }

  /** set: only from PromiseNotSatisfied; otherwise the current state is thrown and nothing changes. */
  function SetCell<T>(c: Cell<T>, v: T): (Cell<T>, Outcome<int>)
  {
    if c.state != PromiseNotSatisfied then (c, Throw(FutureError(c.state)))
    else (c.(value := Some(v), state := PromiseAlreadySatisfied), Ok(0))
  }

  /** get, once the state has changed: the value is moved out and the cell is marked retrieved. */
  function GetCell<T>(c: Cell<T>): (Cell<T>, Outcome<T>)
    requires ValidCell(c) && StateHasChanged(c)
  {
    match CheckPromiseState(c.state, c.exception)
    case Throw(f) => (c, Throw(f))
    case Ok(_) => (c.(state := FutureAlreadyRetrieved, value := None), Ok(c.value.value))
  }

  /** getRef, once the state has changed: reads the value and changes nothing. */
  function GetRefCell<T>(c: Cell<T>): Outcome<T>
    requires ValidCell(c) && StateHasChanged(c)
  {
    match CheckPromiseState(c.state, c.exception)
    case Throw(f) => Throw(f)
    case Ok(_) => Ok(c.value.value)
  }

  /** breakPromise: only a pending promise becomes broken. */
  function BreakPromiseCell<T>(c: Cell<T>): Cell<T>
  {
    if c.state == PromiseNotSatisfied then c.(state := BrokenPromise) else c
  }

  /** setException: stores the exception, leaves the state; returns -1. */
  function SetExceptionCell<T>(c: Cell<T>, ex: ExceptionPtr): (Cell<T>, int)
  {
    (c.(exception := Some(ex)), -1)
  }

  /** waitFor: the verdict looks only at the state. */
  function WaitForCell<T>(c: Cell<T>): FutureStatus
  {
    if c.state == PromiseNotSatisfied then Timeout else Ready
  }

  lemma NewCellValid<T>()
    ensures ValidCell(NewCell<T>()) && !StateHasChanged(NewCell<T>())
  {
  }

  lemma SetPreservesValid<T>(c: Cell<T>, v: T)
    requires ValidCell(c)
    ensures ValidCell(SetCell(c, v).0)
  {
  }

  lemma SetSucceedsIff<T>(c: Cell<T>, v: T)
    ensures SetCell(c, v).1.Ok? <==> c.state == PromiseNotSatisfied
    ensures SetCell(c, v).1.Ok? ==> SetCell(c, v).0 == Cell(PromiseAlreadySatisfied, Some(v), c.exception)
    ensures SetCell(c, v).1.Throw? ==> SetCell(c, v).0 == c && SetCell(c, v).1 == Throw(FutureError(c.state))
  {
  }

  /** A second set throws PromiseAlreadySatisfied and keeps the first value. */
  lemma SecondSetThrows<T>(c: Cell<T>, v1: T, v2: T)
    requires c.state == PromiseNotSatisfied
    ensures var c1 := SetCell(c, v1).0;
            SetCell(c1, v2) == (c1, Throw(FutureError(PromiseAlreadySatisfied))) && c1.value == Some(v1)
  {
  }

  /** A satisfied cell hands out its value once; the second get throws FutureAlreadyRetrieved. */
  lemma GetThenGetThrows<T>(c: Cell<T>, v: T)
    requires c.state == PromiseNotSatisfied && c.exception.None?
    ensures var c1 := SetCell(c, v).0;
            ValidCell(c1) && StateHasChanged(c1) &&
            var (c2, r) := GetCell(c1);
            r == Ok(v) && c2.state == FutureAlreadyRetrieved &&
            ValidCell(c2) && StateHasChanged(c2) &&
            GetCell(c2).1 == Throw(FutureError(FutureAlreadyRetrieved))
  {
  }

  lemma GetPreservesValid<T>(c: Cell<T>)
    requires ValidCell(c) && StateHasChanged(c)
    ensures ValidCell(GetCell(c).0) && StateHasChanged(GetCell(c).0)
  {
  }

  /** getRef never changes the cell, so it may be repeated, and agrees with get. */
  lemma GetRefRepeatable<T>(c: Cell<T>)
    requires ValidCell(c) && StateHasChanged(c)
    ensures GetRefCell(c) == GetCell(c).1
    ensures GetRefCell(c).Ok? <==> c.exception.None? && c.state == PromiseAlreadySatisfied
  {
  }

  /** A stored exception is rethrown by get whatever the state, and setException leaves the state alone. */
  lemma ExceptionRethrownFirst<T>(c: Cell<T>, ex: ExceptionPtr)
    requires ValidCell(c)
    ensures var (c1, rc) := SetExceptionCell(c, ex);
            rc == -1 && c1.state == c.state && ValidCell(c1) && StateHasChanged(c1) &&
            GetCell(c1) == (c1, Throw(UserException(ex)))
  {
  }

  lemma BreakPromiseOnlyFromPending<T>(c: Cell<T>)
    ensures BreakPromiseCell(c).state == (if c.state == PromiseNotSatisfied then BrokenPromise else c.state)
    ensures BreakPromiseCell(c).value == c.value && BreakPromiseCell(c).exception == c.exception
  {
  }

  /** A broken promise makes get throw BrokenPromise. */
  lemma BrokenPromiseThrows<T>(c: Cell<T>)
    requires ValidCell(c) && c.state == PromiseNotSatisfied && c.exception.None?
    ensures var c1 := BreakPromiseCell(c);
            ValidCell(c1) && StateHasChanged(c1) && GetCell(c1).1 == Throw(FutureError(BrokenPromise))
  {
  }

  lemma WaitForTimeoutIff<T>(c: Cell<T>)
    ensures WaitForCell(c) == Timeout <==> c.state == PromiseNotSatisfied
  {
  }

  /** SharedState<T>: the cell updated in place. */
  class SharedState<T> {
    var state: FutureState
    var value: Option<T>
    var exception: Option<ExceptionPtr>

    function Snapshot(): Cell<T>
      reads this
    {
      Cell(state, value, exception)
    }

    ghost predicate Valid()
      reads this
    {
      ValidCell(Snapshot())
    }

    constructor ()
      ensures Valid() && Snapshot() == NewCell()
    {
      state := PromiseNotSatisfied;
      value := None;
      exception := None;
    }

    method Set(v: T) returns (r: Outcome<int>)
      requires Valid()
      modifies this
      ensures Valid()
      ensures (Snapshot(), r) == SetCell(old(Snapshot()), v)
    {
      if state != PromiseNotSatisfied {
        return Throw(FutureError(state));
      }
      value := Some(v);
      state := PromiseAlreadySatisfied;
      r := Ok(0);
    }

    /** get; the wait for a change is the precondition. */
    method Get() returns (r: Outcome<T>)
      requires Valid() && StateHasChanged(Snapshot())
      modifies this
      ensures Valid()
      ensures (Snapshot(), r) == GetCell(old(Snapshot()))
    {
      var check := CheckPromiseState(state, exception);
      if check.Throw? {
        return Throw(check.failure);
      }
      state := FutureAlreadyRetrieved;
      r := Ok(value.value);
      value := None;
    }

    method GetRef() returns (r: Outcome<T>)
      requires Valid() && StateHasChanged(Snapshot())
      ensures r == GetRefCell(Snapshot())
    {
      var check := CheckPromiseState(state, exception);
      if check.Throw? {
        return Throw(check.failure);
      }
      r := Ok(value.value);
    }

    method BreakPromise()
      requires Valid()
      modifies this
      ensures Valid()
      ensures Snapshot() == BreakPromiseCell(old(Snapshot()))
    {
      if state == PromiseNotSatisfied {
        state := BrokenPromise;
      }
    }

    method SetException(ex: ExceptionPtr) returns (rc: int)
      requires Valid()
      modifies this
      ensures Valid()
      ensures (Snapshot(), rc) == SetExceptionCell(old(Snapshot()), ex)
    {
      exception := Some(ex);
      rc := -1;
    }

    /** waitFor: the wait itself is not modelled; the verdict is taken on the current state. */
    method WaitFor() returns (status: FutureStatus)
      ensures status == WaitForCell(Snapshot())
    {
      status := if state == PromiseNotSatisfied then Timeout else Ready;
    }
  }

  // ------------------------------------------------------------------
  // Buffered shared state
  // ------------------------------------------------------------------

  /** The buffered cell: state, the producer's writer, the consumer's reader, and the stored exception. */
  datatype BufferedCell<T> = BufferedCell(state: FutureState, writer: Contents<T>, reader: Contents<T>,
                                          exception: Option<ExceptionPtr>)

  /** The outcome of a pull that did not throw: an item, or the report that the stream is closed and drained. */
  datatype Pulled<T> = Item(value: T) | Drained

  function NewBufferedCell<T>(): BufferedCell<T>
  {
    BufferedCell(PromiseNotSatisfied, Empty(), Empty(), None)
  }

  /** The states a buffered cell can be in; pushing is possible exactly while the writer is open. */
  ghost predicate ValidBuffered<T>(c: BufferedCell<T>)
  {
    c.state in {PromiseNotSatisfied, BufferingData, BufferClosed, BrokenPromise, FutureAlreadyRetrieved} &&
    (c.state in {PromiseNotSatisfied, BufferingData} ==> !c.writer.closed) &&
    (c.state == BufferClosed ==> c.writer.closed)
  }

  /** The status the wait predicate derives from the writer. */
  function WriterStatus<T>(w: Contents<T>): BufferStatus
  {
    if |w.items| == 0 then (if w.closed then Closed else DataPending) else DataPosted
  }

  /** stateHasChanged(status) of the buffer specialisation. */
  predicate BufferStateHasChanged<T>(c: BufferedCell<T>)
  {
    WriterStatus(c.writer) in {DataPosted, DataReceived, Closed} ||
    c.state == BrokenPromise || c.state == FutureAlreadyRetrieved ||
    c.exception.Some?
  }

  /** A pull returns without blocking when the reader has data or the wait predicate holds. */
  predicate CanPull<T>(c: BufferedCell<T>)
  {
    |c.reader.items| > 0 || BufferStateHasChanged(c)
  }

  /** push: only while pending or buffering; a closed writer throws BufferClosed. */
  function PushBuffered<T>(c: BufferedCell<T>, v: T): (BufferedCell<T>, Outcome<()>)
  {
    if c.state != PromiseNotSatisfied && c.state != BufferingData then (c, Throw(FutureError(c.state)))
    else
      var (w, status) := PushValue(c.writer, v);
      if status == Closed then (c.(writer := w), Throw(FutureError(BufferClosed)))
      else (c.(writer := w, state := BufferingData), Ok(()))
  }

  /** pull: the reader first; otherwise the writer is moved into the reader and pulled from. */
  function PullBuffered<T>(c: BufferedCell<T>): (BufferedCell<T>, Outcome<Pulled<T>>)
    requires CanPull(c)
  {
    if |c.reader.items| > 0 then
      (c.(reader := Contents(c.reader.items[1..], c.reader.closed)), Ok(Item(c.reader.items[0])))
    else
      var moved := c.(reader := c.writer, writer := Contents([], c.writer.closed));
      if |moved.reader.items| == 0 && moved.reader.closed then
        (moved.(state := FutureAlreadyRetrieved), Ok(Drained))
      else
        var (r, _, out) := PullValue(moved.reader);
        var after := moved.(reader := r);
        match CheckPromiseState(after.state, after.exception)
        case Throw(f) => (after, Throw(f))
        case Ok(_) => (after, if out.Some? then Ok(Item(out.value)) else assert false; Ok(Drained))
  }

  /** closeBuffer: closes the writer; the state becomes BufferClosed only from pending or buffering. */
  function CloseBuffered<T>(c: BufferedCell<T>): (BufferedCell<T>, int)
  {
    var s := if c.state == PromiseNotSatisfied || c.state == BufferingData then BufferClosed else c.state;
    (c.(state := s, writer := CloseValue(c.writer)), 0)
  }

  /** breakPromise of the buffer specialisation: from pending or buffering only. */
  function BreakBuffered<T>(c: BufferedCell<T>): BufferedCell<T>
  {
    if c.state == PromiseNotSatisfied || c.state == BufferingData then c.(state := BrokenPromise) else c
  }

  function SetExceptionBuffered<T>(c: BufferedCell<T>, ex: ExceptionPtr): (BufferedCell<T>, int)
  {
    (c.(exception := Some(ex)), -1)
  }

  /** waitFor of the buffer specialisation: ready with data in the reader, else judged on the writer. */
  function WaitForBuffered<T>(c: BufferedCell<T>): FutureStatus
  {
    if |c.reader.items| > 0 then Ready
    else if |c.writer.items| == 0 && !c.writer.closed then Timeout
    else Ready
  }

  /** Pushes every element of `xs` in order, ignoring the outcomes. */
  function PushAllBuffered<T>(c: BufferedCell<T>, xs: seq<T>): BufferedCell<T>
    decreases |xs|
  {
    if |xs| == 0 then c else PushAllBuffered(PushBuffered(c, xs[0]).0, xs[1..])
  }

  /** The outcomes of up to `n` successive pulls, stopping at the first pull that would block. */
  function PullOutcomes<T>(c: BufferedCell<T>, n: nat): seq<Outcome<Pulled<T>>>
    decreases n
  {
    if n == 0 || !CanPull(c) then []
    else
      var (c', r) := PullBuffered(c);
      [r] + PullOutcomes(c', n - 1)
  }

  function Items<T>(xs: seq<T>): seq<Outcome<Pulled<T>>>
    decreases |xs|
  {
    if |xs| == 0 then [] else [Ok(Item(xs[0]))] + Items(xs[1..])
  }

  /** A new buffered state is pending with both buffers open and empty, and a pull on it would block. */
  lemma NewBufferedCellValid<T>()
    ensures ValidBuffered(NewBufferedCell<T>()) && !BufferStateHasChanged(NewBufferedCell<T>())
    ensures !CanPull(NewBufferedCell<T>())
  {
  }

  lemma PushBufferedPreservesValid<T>(c: BufferedCell<T>, v: T)
    requires ValidBuffered(c)
    ensures ValidBuffered(PushBuffered(c, v).0)
  {
  }

  lemma PushBufferedSpec<T>(c: BufferedCell<T>, v: T)
    requires ValidBuffered(c)
    ensures var (c1, r) := PushBuffered(c, v);
            (r.Ok? <==> c.state in {PromiseNotSatisfied, BufferingData}) &&
            (r.Ok? ==> c1 == c.(state := BufferingData, writer := Contents(c.writer.items + [v], false))) &&
            (r.Throw? ==> c1 == c && r == Throw(FutureError(c.state)))
  {
  }

  /** A writer can only be closed by closeBuffer, and pushing onto it throws BufferClosed. */
  lemma PushAfterCloseThrows<T>(c: BufferedCell<T>, v: T)
    requires ValidBuffered(c) && c.state in {PromiseNotSatisfied, BufferingData}
    ensures var c1 := CloseBuffered(c).0;
            ValidBuffered(c1) && c1.state == BufferClosed && c1.writer.closed &&
            PushBuffered(c1, v) == (c1, Throw(FutureError(BufferClosed)))
  {
  }

  lemma CloseBufferedSpec<T>(c: BufferedCell<T>)
    requires ValidBuffered(c)
    ensures var (c1, rc) := CloseBuffered(c);
            rc == 0 && ValidBuffered(c1) && c1.writer == Contents(c.writer.items, true) &&
            c1.state == (if c.state in {PromiseNotSatisfied, BufferingData} then BufferClosed else c.state) &&
            c1.reader == c.reader && c1.exception == c.exception
  {
  }

  /**
   * setException of the buffer specialisation stores the exception and keeps
   * the state; once the reader is empty, the next pull of a stream that is
   * not drained and closed rethrows it.
   */
  lemma SetExceptionBufferedSpec<T>(c: BufferedCell<T>, ex: ExceptionPtr)
    requires ValidBuffered(c)
    ensures var (c1, rc) := SetExceptionBuffered(c, ex);
            rc == -1 && c1.state == c.state && ValidBuffered(c1) && c1.exception == Some(ex) && CanPull(c1) &&
            (|c.reader.items| == 0 && !(|c.writer.items| == 0 && c.writer.closed) ==>
               PullBuffered(c1).1 == Throw(UserException(ex)))
  {
  }

  lemma BreakBufferedSpec<T>(c: BufferedCell<T>)
    requires ValidBuffered(c)
    ensures ValidBuffered(BreakBuffered(c))
    ensures BreakBuffered(c).state == (if c.state in {PromiseNotSatisfied, BufferingData} then BrokenPromise else c.state)
  {
  }

  /** A pull of a drained, closed stream reports it and marks the future retrieved; so does every later pull. */
  lemma DrainedPullMarksRetrieved<T>(c: BufferedCell<T>)
    requires |c.reader.items| == 0 && |c.writer.items| == 0 && c.writer.closed
    ensures CanPull(c)
    ensures var (c1, r) := PullBuffered(c);
            r == Ok(Drained) && c1.state == FutureAlreadyRetrieved &&
            |c1.reader.items| == 0 && |c1.writer.items| == 0 && c1.writer.closed &&
            PullBuffered(c1).1 == Ok(Drained)
  {
  }

  lemma PullBufferedPreservesValid<T>(c: BufferedCell<T>)
    requires ValidBuffered(c) && CanPull(c)
    ensures ValidBuffered(PullBuffered(c).0)
  {
  }

  lemma WaitForBufferedTimeoutIff<T>(c: BufferedCell<T>)
    ensures WaitForBuffered(c) == Timeout <==> |c.reader.items| == 0 && |c.writer.items| == 0 && !c.writer.closed
  {
  }

  lemma {:induction false} PushAllKeepsBuffering<T>(c: BufferedCell<T>, xs: seq<T>)
    requires ValidBuffered(c) && c.state in {PromiseNotSatisfied, BufferingData}
    ensures var c1 := PushAllBuffered(c, xs);
            ValidBuffered(c1) && c1.writer == Contents(c.writer.items + xs, false) &&
            c1.reader == c.reader && c1.exception == c.exception &&
            c1.state == (if |xs| == 0 then c.state else BufferingData)
    decreases |xs|
  {
    if |xs| > 0 {
      var c0 := PushBuffered(c, xs[0]).0;
      PushAllKeepsBuffering(c0, xs[1..]);
      assert c.writer.items + [xs[0]] + xs[1..] == c.writer.items + xs;
    }
  }

  /** Pulling from a closed stream whose remaining data sits in the reader yields that data, then Drained. */
  lemma {:induction false} PullReaderThenDrained<T>(c: BufferedCell<T>)
    requires c.exception.None? && |c.writer.items| == 0 && c.writer.closed
    ensures PullOutcomes(c, |c.reader.items| + 1) == Items(c.reader.items) + [Ok(Drained)]
    decreases |c.reader.items|
  {
    if |c.reader.items| > 0 {
      var c1 := c.(reader := Contents(c.reader.items[1..], c.reader.closed));
      PullReaderThenDrained(c1);
    } else {
      DrainedPullMarksRetrieved(c);
      var c1 := PullBuffered(c).0;
      assert PullOutcomes(c1, 0) == [];
    }
  }

  /** Streaming round trip: push xs, close, and the consumer's pulls yield xs in order, then Drained. */
  lemma {:induction false} StreamRoundTrip<T>(xs: seq<T>)
    ensures var c := CloseBuffered(PushAllBuffered(NewBufferedCell(), xs)).0;
            PullOutcomes(c, |xs| + 1) == Items(xs) + [Ok(Drained)]
  {
    var c0 := NewBufferedCell<T>();
    PushAllKeepsBuffering(c0, xs);
    assert PushAllBuffered(c0, xs).writer.items == xs;
    var c := CloseBuffered(PushAllBuffered(c0, xs)).0;
    if |xs| == 0 {
      DrainedPullMarksRetrieved(c);
      var c1 := PullBuffered(c).0;
      assert PullOutcomes(c1, 0) == [];
    } else {
      // the first pull moves the writer into the reader and takes xs[0]
      var c1 := PullBuffered(c).0;
      assert c1.reader.items == xs[1..];
      assert PullBuffered(c).1 == Ok(Item(xs[0]));
      PullReaderThenDrained(c1);
      assert |c1.reader.items| + 1 == |xs|;
    }
  }

  /** SharedState<Buffer<T>>: state and exception, plus the writer and reader buffers it owns. */
  class BufferedSharedState<T> {
    var state: FutureState
    var exception: Option<ExceptionPtr>
    const writer: Buffer<T>
    const reader: Buffer<T>

    function Snapshot(): BufferedCell<T>
      reads this, writer, reader
    {
      BufferedCell(state, writer.Value(), reader.Value(), exception)
    }

    ghost predicate Valid()
      reads this, writer, reader
    {
      writer != reader && ValidBuffered(Snapshot())
    }

    constructor ()
      ensures Valid() && Snapshot() == NewBufferedCell()
      ensures fresh(writer) && fresh(reader)
    {
      state := PromiseNotSatisfied;
      exception := None;
      writer := new Buffer();
      reader := new Buffer();
    }

    method Push(v: T) returns (r: Outcome<()>)
      requires Valid()
      modifies this, writer
      ensures Valid()
      ensures (Snapshot(), r) == PushBuffered(old(Snapshot()), v)
    {
      if state != PromiseNotSatisfied && state != BufferingData {
        return Throw(FutureError(state));
      }
      var status := writer.Push(v);
      if status == Closed {
        return Throw(FutureError(BufferClosed));
      }
      state := BufferingData;
      r := Ok(());
    }

    /** pull; the blocking wait is the precondition CanPull. */
    method Pull() returns (r: Outcome<Pulled<T>>)
      requires Valid() && CanPull(Snapshot())
      modifies this, writer, reader
      ensures Valid()
      ensures (Snapshot(), r) == PullBuffered(old(Snapshot()))
    {
      var dataAvailable := reader.IsEmpty();
      if !dataAvailable {
        var _, out := reader.Pull();
        return Ok(Item(out.value));
      }
      reader.MoveFrom(writer);
      var readerEmpty := reader.IsEmpty();
      var readerClosed := reader.IsClosed();
      if readerEmpty && readerClosed {
        state := FutureAlreadyRetrieved;
        return Ok(Drained);
      }
      var _, out := reader.Pull();
      var check := CheckPromiseState(state, exception);
      if check.Throw? {
        return Throw(check.failure);
      }
      r := Ok(Item(out.value));
    }

    method CloseBuffer() returns (rc: int)
      requires Valid()
      modifies this, writer
      ensures Valid()
      ensures (Snapshot(), rc) == CloseBuffered(old(Snapshot()))
    {
      if state == PromiseNotSatisfied || state == BufferingData {
        state := BufferClosed;
      }
      writer.Close();
      rc := 0;
    }

    method BreakPromise()
      requires Valid()
      modifies this
      ensures Valid()
      ensures Snapshot() == BreakBuffered(old(Snapshot()))
    {
      if state == PromiseNotSatisfied || state == BufferingData {
        state := BrokenPromise;
      }
    }

    method SetException(ex: ExceptionPtr) returns (rc: int)
      requires Valid()
      modifies this
      ensures Valid()
      ensures (Snapshot(), rc) == SetExceptionBuffered(old(Snapshot()), ex)
    {
      exception := Some(ex);
      rc := -1;
    }

    method WaitFor() returns (status: FutureStatus)
      ensures status == WaitForBuffered(Snapshot())
    {
      var readerEmpty := reader.IsEmpty();
      if !readerEmpty {
        return Ready;
      }
      var writerEmpty := writer.IsEmpty();
      var writerClosed := writer.IsClosed();
      status := if writerEmpty && !writerClosed then Timeout else Ready;
    }
  }
}
