// SequenceKeyStatistics / SequenceKeyStatisticsWriter of
// quantum_sequence_key_statistics_impl.h: a posted and a pending counter,
// both size_t, so arithmetic wraps modulo 2^64.
module KeyStatistics {
  const SIZE_MODULUS: int := 0x1_0000_0000_0000_0000

  /** size_t */
  type Size = x: int | 0 <= x < SIZE_MODULUS

  datatype Counters = Counters(posted: Size, pending: Size)

  function NewCounters(): Counters
  {
    Counters(0, 0)
  }

  function Inc(x: Size): Size { (x + 1) % SIZE_MODULUS }

  function Dec(x: Size): Size { (x - 1) % SIZE_MODULUS }

  function IncrementPosted(c: Counters): Counters { c.(posted := Inc(c.posted)) }

  function IncrementPending(c: Counters): Counters { c.(pending := Inc(c.pending)) }

  function DecrementPending(c: Counters): Counters { c.(pending := Dec(c.pending)) }

  /** The copy and move constructors and the move assignment take both counters. */
  function Copy(that: Counters): Counters { Counters(that.posted, that.pending) }

  /** The copy assignment as written: the pending counter is assigned from itself. */
  function AssignAsWritten(self: Counters, that: Counters): Counters
  {
    Counters(that.posted, self.pending)
  }

  /** The copy assignment as intended: the same result as a copy. */
  function Assign(self: Counters, that: Counters): Counters
  {
    Copy(that)
  }

  lemma IncrementPostedSpec(c: Counters)
    ensures IncrementPosted(c).pending == c.pending
    ensures c.posted + 1 < SIZE_MODULUS ==> IncrementPosted(c).posted == c.posted + 1
    ensures c.posted == SIZE_MODULUS - 1 ==> IncrementPosted(c).posted == 0
  {
  }

  lemma PendingSpec(c: Counters)
    ensures IncrementPending(c).posted == c.posted && DecrementPending(c).posted == c.posted
    ensures c.pending + 1 < SIZE_MODULUS ==> IncrementPending(c).pending == c.pending + 1
    ensures c.pending > 0 ==> DecrementPending(c).pending == c.pending - 1
    ensures c.pending == 0 ==> DecrementPending(c).pending == SIZE_MODULUS - 1
  {
  }

  /** Incrementing and then decrementing pending restores it, wrap-around included. */
  lemma PendingRoundTrip(c: Counters)
    ensures DecrementPending(IncrementPending(c)) == c
    ensures IncrementPending(DecrementPending(c)) == c
  {
  }

  lemma CopyTakesBoth(that: Counters)
    ensures Copy(that) == that
  {
  }

  /** Copy assignment as written keeps this object's pending count; it differs from a copy whenever the pending counts differ. */
  lemma AssignAsWrittenKeepsPending(self: Counters, that: Counters)
    ensures AssignAsWritten(self, that).posted == that.posted
    ensures AssignAsWritten(self, that).pending == self.pending
    ensures AssignAsWritten(self, that) == Copy(that) <==> self.pending == that.pending
  {
  }

  /** A concrete case: assigning {posted 3, pending 2} to a fresh object yields pending 0, not 2. */
  lemma AssignAsWrittenCounterexample()
    ensures AssignAsWritten(NewCounters(), Counters(3, 2)) == Counters(3, 0)
    ensures AssignAsWritten(NewCounters(), Counters(3, 2)) != Copy(Counters(3, 2))
  {
  }

  /** The intended copy assignment agrees with the copy constructor and with the move assignment. */
  lemma AssignAgreesWithCopy(self: Counters, that: Counters)
    ensures Assign(self, that) == that
  {
  }

  /** SequenceKeyStatisticsWriter: the counters, updated in place. */
  class SequenceKeyStatistics {
    var posted: Size
    var pending: Size

    function Value(): Counters
      reads this
    {
      Counters(posted, pending)
    }

    constructor ()
      ensures Value() == NewCounters()
    {
      posted, pending := 0, 0;
    }

    /** Copy constructor (also the move constructor). */
    constructor Copied(that: SequenceKeyStatistics)
      ensures Value() == Copy(that.Value())
    {
      posted, pending := that.posted, that.pending;
    }

    /** Copy assignment with the intended behaviour; see AssignAsWritten for the source as written. */
    method CopyAssign(that: SequenceKeyStatistics)
      modifies this
      ensures Value() == Assign(old(Value()), old(that.Value()))
    {
      posted, pending := that.posted, that.pending;
    }

    method MoveAssign(that: SequenceKeyStatistics)
      modifies this
      ensures Value() == Copy(old(that.Value()))
    {
      posted, pending := that.posted, that.pending;
    }

    method IncrementPostedTaskCount()
      modifies this
      ensures Value() == IncrementPosted(old(Value()))
    {
      posted := Inc(posted);
    }

    method IncrementPendingTaskCount()
      modifies this
      ensures Value() == IncrementPending(old(Value()))
    {
      pending := Inc(pending);
    }

    method DecrementPendingTaskCount()
      modifies this
      ensures Value() == DecrementPending(old(Value()))
    {
      pending := Dec(pending);
    }
  }
}
