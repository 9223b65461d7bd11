// Buffer<T> of quantum_buffer.h: a FIFO of values with a closed flag.
module Buffers {
  import opened Wrappers

  /** BufferStatus of quantum_buffer.h. */
  datatype BufferStatus = DataReceived | DataPosted | DataPending | Closed

  /** The observable value of a buffer: its queued items, front first, and whether it is closed. */
  datatype Contents<T> = Contents(items: seq<T>, closed: bool)

  function Empty<T>(): Contents<T> { Contents([], false) }

  /** push: refused on a closed buffer, otherwise appended at the back. */
  function PushValue<T>(b: Contents<T>, v: T): (Contents<T>, BufferStatus)
  {
    if b.closed then (b, Closed) else (Contents(b.items + [v], b.closed), DataPosted)
  }

  /** pull: the front item, if any; an empty buffer reports whether more may come. */
  function PullValue<T>(b: Contents<T>): (Contents<T>, BufferStatus, Option<T>)
  {
    if |b.items| == 0 then (b, if b.closed then Closed else DataPending, None)
    else (Contents(b.items[1..], b.closed), DataReceived, Some(b.items[0]))
  }

  /** close: sets the flag and keeps the items. */
  function CloseValue<T>(b: Contents<T>): Contents<T>
  {
    Contents(b.items, true)
  }

  /** The buffer after pushing every element of `xs`, in order. */
  function PushAll<T>(b: Contents<T>, xs: seq<T>): Contents<T>
    decreases |xs|
  {
    if |xs| == 0 then b else PushAll(PushValue(b, xs[0]).0, xs[1..])
  }

  /** The values obtained by pulling `n` times (pulls that yield nothing contribute nothing). */
  function PullMany<T>(b: Contents<T>, n: nat): seq<T>
    decreases n
  {
    if n == 0 then []
    else
      var (b', _, v) := PullValue(b);
      (if v.Some? then [v.value] else []) + PullMany(b', n - 1)
  }

  lemma PushClosed<T>(b: Contents<T>, v: T)
    requires b.closed
    ensures PushValue(b, v) == (b, Closed)
  {
  }

  lemma PushOpen<T>(b: Contents<T>, v: T)
    requires !b.closed
    ensures PushValue(b, v).1 == DataPosted
    ensures PushValue(b, v).0.items == b.items + [v]
    ensures |PushValue(b, v).0.items| == |b.items| + 1
  {
  }

  lemma PullEmpty<T>(b: Contents<T>)
    requires |b.items| == 0
    ensures PullValue(b).0 == b && PullValue(b).2 == None
    ensures PullValue(b).1 == (if b.closed then Closed else DataPending)
  {
  }

  lemma PullNonEmpty<T>(b: Contents<T>)
    requires |b.items| > 0
    ensures PullValue(b) == (Contents(b.items[1..], b.closed), DataReceived, Some(b.items[0]))
  {
  }

  lemma CloseIdempotent<T>(b: Contents<T>)
    ensures CloseValue(b).closed && CloseValue(b).items == b.items
    ensures CloseValue(CloseValue(b)) == CloseValue(b)
  {
  }

  /** Pushing onto an open buffer keeps it open and appends everything in order. */
  lemma {:induction false} PushAllOpen<T>(b: Contents<T>, xs: seq<T>)
    requires !b.closed
    ensures PushAll(b, xs) == Contents(b.items + xs, false)
    decreases |xs|
  {
    if |xs| > 0 {
      PushAllOpen(Contents(b.items + [xs[0]], false), xs[1..]);
      assert b.items + [xs[0]] + xs[1..] == b.items + xs;
    }
  }

  /** Every queued item comes out, front first, and nothing else. */
  lemma {:induction false} PullManyDrains<T>(b: Contents<T>, n: nat)
    requires n >= |b.items|
    ensures PullMany(b, n) == b.items
    decreases n
  {
    if n > 0 && |b.items| > 0 {
      PullManyDrains(Contents(b.items[1..], b.closed), n - 1);
    } else if n > 0 {
      PullManyDrains(b, n - 1);
    }
  }

  /** FIFO: values pushed onto a fresh buffer are pulled in push order. */
  lemma {:induction false} PushOrderIsPullOrder<T>(xs: seq<T>)
    ensures PullMany(PushAll(Empty(), xs), |xs|) == xs
  {
    PushAllOpen(Empty<T>(), xs);
    assert PushAll(Empty(), xs) == Contents(xs, false);
    PullManyDrains(Contents(xs, false), |xs|);
  }

  /** Buffer<T>: the deque and the closed flag, updated in place. */
  class Buffer<T> {
    var items: seq<T>
    var closed: bool

    function Value(): Contents<T>
      reads this
    {
      Contents(items, closed)
    }

    constructor ()
      ensures Value() == Empty()
    {
      items := [];
      closed := false;
    }

    method Push(v: T) returns (status: BufferStatus)
      modifies this
      ensures (Value(), status) == PushValue(old(Value()), v)
    {
      if closed {
        return Closed;
      }
      items := items + [v];
      status := DataPosted;
    }

    method Pull() returns (status: BufferStatus, out: Option<T>)
      modifies this
      ensures (Value(), status, out) == PullValue(old(Value()))
    {
      if |items| == 0 {
        status := if closed then Closed else DataPending;
        out := None;
        return;
      }
      out := Some(items[0]);
      items := items[1..];
      status := DataReceived;
    }

    method Close()
      modifies this
      ensures Value() == CloseValue(old(Value()))
    {
      closed := true;
    }

    method IsClosed() returns (r: bool)
      ensures r == closed
    {
      r := closed;
    }

    method Size() returns (n: nat)
      ensures n == |items|
    {
      n := |items|;
    }

    method IsEmpty() returns (r: bool)
      ensures r <==> |items| == 0
    {
      r := |items| == 0;
    }

    /** Move assignment `*this = std::move(other)`: takes the items and the flag; `other` keeps its flag and loses its items. */
    method MoveFrom(other: Buffer<T>)
      requires other != this
      modifies this, other
      ensures Value() == old(other.Value())
      ensures other.Value() == Contents([], old(other.closed))
    {
      items, closed := other.items, other.closed;
      other.items := [];
    }
  }
}
