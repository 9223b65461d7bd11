// QueueStatistics of quantum_queue_statistics_impl.h: seven size_t
// counters kept by every task queue and IO queue.
module QueueStatistics {
  import opened KeyStatistics

  /** The counters, by name. */
  datatype Counter =
    | NumElements
    | ErrorCount
    | SharedQueueErrorCount
    | CompletedCount
    | SharedQueueCompletedCount
    | PostedCount
    | HighPriorityCount

  datatype Stats = Stats(
    numElements: Size,
    errorCount: Size,
    sharedQueueErrorCount: Size,
    completedCount: Size,
    sharedQueueCompletedCount: Size,
    postedCount: Size,
    highPriorityCount: Size)

  function Get(s: Stats, c: Counter): Size
  {
    match c
    case NumElements => s.numElements
    case ErrorCount => s.errorCount
    case SharedQueueErrorCount => s.sharedQueueErrorCount
    case CompletedCount => s.completedCount
    case SharedQueueCompletedCount => s.sharedQueueCompletedCount
    case PostedCount => s.postedCount
    case HighPriorityCount => s.highPriorityCount
  }

  function Set(s: Stats, c: Counter, v: Size): Stats
  {
    match c
    case NumElements => s.(numElements := v)
    case ErrorCount => s.(errorCount := v)
    case SharedQueueErrorCount => s.(sharedQueueErrorCount := v)
    case CompletedCount => s.(completedCount := v)
    case SharedQueueCompletedCount => s.(sharedQueueCompletedCount := v)
    case PostedCount => s.(postedCount := v)
    case HighPriorityCount => s.(highPriorityCount := v)
  }

  /** reset (also what the default constructor does). */
  function Reset(): (r: Stats)
    ensures forall c: Counter :: Get(r, c) == 0
  {
    Stats(0, 0, 0, 0, 0, 0, 0)
  }

  /** incNumElements, incErrorCount, ...: the named counter's ++. */
  function Increment(s: Stats, c: Counter): Stats
  {
    Set(s, c, Inc(Get(s, c)))
  }

  /** decNumElements: one less, never below zero. */
  function DecNumElements(s: Stats): Stats
  {
    s.(numElements := if s.numElements == 0 then 0 else s.numElements - 1)
  }

  /** size_t addition. */
  function AddSize(x: Size, y: Size): Size
  {
    (x + y) % SIZE_MODULUS
  }

  /** operator+=: every counter of rhs added to the same counter, modulo 2^64. */
  function AddAssign(lhs: Stats, rhs: Stats): Stats
  {
    Stats(
      AddSize(lhs.numElements, rhs.numElements),
      AddSize(lhs.errorCount, rhs.errorCount),
      AddSize(lhs.sharedQueueErrorCount, rhs.sharedQueueErrorCount),
      AddSize(lhs.completedCount, rhs.completedCount),
      AddSize(lhs.sharedQueueCompletedCount, rhs.sharedQueueCompletedCount),
      AddSize(lhs.postedCount, rhs.postedCount),
      AddSize(lhs.highPriorityCount, rhs.highPriorityCount))
  }

  /** operator+ takes lhs by value and adds rhs into the copy. */
  function Plus(lhs: Stats, rhs: Stats): Stats
  {
    AddAssign(lhs, rhs)
  }

  /** Writing a counter changes that counter and no other. */
  lemma SetSpec(s: Stats, c: Counter, v: Size)
    ensures Get(Set(s, c, v), c) == v
    ensures forall d: Counter | d != c :: Get(Set(s, c, v), d) == Get(s, d)
  {
  }

  /** operator+ leaves both operands alone and gives their componentwise sum, in either order. */
  lemma PlusSpec(lhs: Stats, rhs: Stats)
    ensures forall c: Counter :: Get(Plus(lhs, rhs), c) == (Get(lhs, c) + Get(rhs, c)) % SIZE_MODULUS
    ensures Plus(lhs, rhs) == Plus(rhs, lhs)
  {
    AddAssignSpec(lhs, rhs);
    AddAssignLaws(lhs, rhs, Reset());
  }

  /** Each inc* raises exactly its own counter by one (wrapping at 2^64) and leaves the other six alone. */
  lemma IncrementSpec(s: Stats, c: Counter)
    ensures Get(s, c) + 1 < SIZE_MODULUS ==> Get(Increment(s, c), c) == Get(s, c) + 1
    ensures Get(s, c) == SIZE_MODULUS - 1 ==> Get(Increment(s, c), c) == 0
    ensures forall d: Counter | d != c :: Get(Increment(s, d), c) == Get(s, c)
  {
  }

  /** decNumElements only changes the element count, and never takes it below 0. */
  lemma DecNumElementsSpec(s: Stats)
    ensures s.numElements > 0 ==> DecNumElements(s).numElements == s.numElements - 1
    ensures s.numElements == 0 ==> DecNumElements(s).numElements == 0
    ensures forall c: Counter | c != NumElements :: Get(DecNumElements(s), c) == Get(s, c)
  {
  }

  /** Adding an element and taking it away again restores the statistics (below the wrap-around). */
  lemma IncDecRoundTrip(s: Stats)
    requires s.numElements + 1 < SIZE_MODULUS
    ensures DecNumElements(Increment(s, NumElements)) == s
  {
  }

  /** += adds every counter componentwise. */
  lemma AddAssignSpec(lhs: Stats, rhs: Stats)
    ensures forall c: Counter :: Get(AddAssign(lhs, rhs), c) == (Get(lhs, c) + Get(rhs, c)) % SIZE_MODULUS
  {
  }

  lemma AddSizeLaws(x: Size, y: Size, z: Size)
    ensures AddSize(x, y) == AddSize(y, x)
    ensures AddSize(x, 0) == x
    ensures AddSize(AddSize(x, y), z) == AddSize(x, AddSize(y, z))
  {
    AddSizeValue(x, y);
    AddSizeValue(y, x);
    AddSizeValue(x, 0);
    AddSizeValue(y, z);
    AddSizeValue(AddSize(x, y), z);
    AddSizeValue(x, AddSize(y, z));
  }

  /** Two sizes sum to less than twice the modulus, so the wrap subtracts it at most once. */
  lemma AddSizeValue(x: Size, y: Size)
    ensures AddSize(x, y) == if x + y < SIZE_MODULUS then x + y else x + y - SIZE_MODULUS
  {
    if x + y >= SIZE_MODULUS {
      assert x + y == (x + y - SIZE_MODULUS) + SIZE_MODULUS * 1;
    }
  }

  /** Summing statistics does not depend on order or grouping, and reset statistics add nothing. */
  lemma AddAssignLaws(a: Stats, b: Stats, c: Stats)
    ensures AddAssign(a, b) == AddAssign(b, a)
    ensures AddAssign(a, Reset()) == a
    ensures AddAssign(AddAssign(a, b), c) == AddAssign(a, AddAssign(b, c))
  {
    AddSizeLaws(a.numElements, b.numElements, c.numElements);
    AddSizeLaws(a.errorCount, b.errorCount, c.errorCount);
    AddSizeLaws(a.sharedQueueErrorCount, b.sharedQueueErrorCount, c.sharedQueueErrorCount);
    AddSizeLaws(a.completedCount, b.completedCount, c.completedCount);
    AddSizeLaws(a.sharedQueueCompletedCount, b.sharedQueueCompletedCount, c.sharedQueueCompletedCount);
    AddSizeLaws(a.postedCount, b.postedCount, c.postedCount);
    AddSizeLaws(a.highPriorityCount, b.highPriorityCount, c.highPriorityCount);
  }

  /** QueueStatistics: the counters, updated in place. */
  class QueueStats {
    var numElements: Size
    var errorCount: Size
    var sharedQueueErrorCount: Size
    var completedCount: Size
    var sharedQueueCompletedCount: Size
    var postedCount: Size
    var highPriorityCount: Size

    function Value(): Stats
      reads this
    {
      Stats(numElements, errorCount, sharedQueueErrorCount, completedCount,
            sharedQueueCompletedCount, postedCount, highPriorityCount)
    }

    constructor ()
      ensures Value() == Reset()
    {
      numElements, errorCount, sharedQueueErrorCount, completedCount := 0, 0, 0, 0;
      sharedQueueCompletedCount, postedCount, highPriorityCount := 0, 0, 0;
    }

    /** The copy constructor takes every counter. */
    constructor Copied(other: QueueStats)
      ensures Value() == other.Value()
    {
      numElements, errorCount, sharedQueueErrorCount := other.numElements, other.errorCount, other.sharedQueueErrorCount;
      completedCount, sharedQueueCompletedCount := other.completedCount, other.sharedQueueCompletedCount;
      postedCount, highPriorityCount := other.postedCount, other.highPriorityCount;
    }

    method ResetAll()
      modifies this
      ensures Value() == Reset()
    {
      numElements, errorCount, sharedQueueErrorCount, completedCount := 0, 0, 0, 0;
      sharedQueueCompletedCount, postedCount, highPriorityCount := 0, 0, 0;
    }

    method IncNumElements()
      modifies this
      ensures Value() == Increment(old(Value()), NumElements)
    {
      numElements := Inc(numElements);
    }

    method IncErrorCount()
      modifies this
      ensures Value() == Increment(old(Value()), ErrorCount)
    {
      errorCount := Inc(errorCount);
    }

    method IncSharedQueueErrorCount()
      modifies this
      ensures Value() == Increment(old(Value()), SharedQueueErrorCount)
    {
      sharedQueueErrorCount := Inc(sharedQueueErrorCount);
    }

    method IncCompletedCount()
      modifies this
      ensures Value() == Increment(old(Value()), CompletedCount)
    {
      completedCount := Inc(completedCount);
    }

    method IncSharedQueueCompletedCount()
      modifies this
      ensures Value() == Increment(old(Value()), SharedQueueCompletedCount)
    {
      sharedQueueCompletedCount := Inc(sharedQueueCompletedCount);
    }

    method IncPostedCount()
      modifies this
      ensures Value() == Increment(old(Value()), PostedCount)
    {
      postedCount := Inc(postedCount);
    }

    method IncHighPriorityCount()
      modifies this
      ensures Value() == Increment(old(Value()), HighPriorityCount)
    {
      highPriorityCount := Inc(highPriorityCount);
    }

    /**
     * compare_exchange on the element count, run without interference: on a
     * match the count takes `desired`, otherwise `expected` takes the count.
     */
    method CompareExchangeNumElements(expected: Size, desired: Size) returns (ok: bool, seen: Size)
      modifies this
      ensures ok <==> old(numElements) == expected
      ensures ok ==> Value() == old(Value()).(numElements := desired) && seen == expected
      ensures !ok ==> Value() == old(Value()) && seen == numElements
    {
      if numElements == expected {
        numElements := desired;
        ok, seen := true, expected;
      } else {
        ok, seen := false, numElements;
      }
    }

    /** decNumElements: a compare-exchange loop that gives up once it sees 0. */
    method DecrementNumElements()
      modifies this
      ensures Value() == DecNumElements(old(Value()))
    {
      var oldValue: Size := 1;
      var newValue: Size := 0;
      var ok;
      ok, oldValue := CompareExchangeNumElements(oldValue, newValue);
      while !ok
        invariant ok ==> Value() == DecNumElements(old(Value()))
        invariant !ok ==> Value() == old(Value()) && oldValue == numElements
        decreases if ok then 0 else if oldValue == 0 then 1 else 2
      {
        if oldValue == 0 {
          break;
        } else {
          newValue := oldValue - 1;
        }
        ok, oldValue := CompareExchangeNumElements(oldValue, newValue);
      }
    }

    /** operator+=. */
    method Add(rhs: QueueStats)
      modifies this
      ensures Value() == AddAssign(old(Value()), old(rhs.Value()))
    {
      var r := rhs.Value();
      numElements := AddSize(numElements, r.numElements);
      errorCount := AddSize(errorCount, r.errorCount);
      sharedQueueErrorCount := AddSize(sharedQueueErrorCount, r.sharedQueueErrorCount);
      completedCount := AddSize(completedCount, r.completedCount);
      sharedQueueCompletedCount := AddSize(sharedQueueCompletedCount, r.sharedQueueCompletedCount);
      postedCount := AddSize(postedCount, r.postedCount);
      highPriorityCount := AddSize(highPriorityCount, r.highPriorityCount);
    }
  }
}
