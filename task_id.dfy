// TaskId of quantum_task_id_impl.h: a signed id (negative for coroutines,
// positive for IO tasks) drawn from a process-wide generator, plus the id of
// the thread the task runs on.
module TaskIds {
  /** ssize_t bounds. */
  const SSIZE_MAX: int := 0x7FFF_FFFF_FFFF_FFFF
  const SSIZE_MIN: int := -0x8000_0000_0000_0000

  type SSize = x: int | SSIZE_MIN <= x <= SSIZE_MAX

  /** Two's complement wrap-around of a sum into ssize_t. */
  function Wrap(x: int): SSize
  {
    (x - SSIZE_MIN) % 0x1_0000_0000_0000_0000 + SSIZE_MIN
  }

  /** The successor the generator computes: i+1, or 1 when i+1 overflows. */
  function NextId(i: SSize): (j: SSize)
  {
    if Wrap(i + 1) < 0 then 1 else Wrap(i + 1)
  }

  /** From a positive value the generator counts up by one and wraps from SSIZE_MAX to 1. */
  lemma NextIdSpec(i: SSize)
    requires i >= 1
    ensures i < SSIZE_MAX ==> NextId(i) == i + 1
    ensures i == SSIZE_MAX ==> NextId(i) == 1
    ensures 1 <= NextId(i)
  {
  }

  /** std::thread::id, with 0 standing for the default "no thread" value. */
  type ThreadId = nat

  datatype TaskId = TaskId(id: SSize, threadId: ThreadId)

  /** The default TaskId and TaskId(ThisThreadTag): id 0, running on `current`. */
  function ThisThread(current: ThreadId): TaskId
  {
    TaskId(0, current)
  }

  /** TaskId(CoroContextTag): the negated generated id; the thread is filled in later. */
  function CoroContext(generated: SSize): (t: TaskId)
    requires generated >= 1
    ensures IsCoroutine(t)
  {
    TaskId(-generated, 0)
  }

  /** TaskId(ThreadContextTag): the generated id as is. */
  function ThreadContext(generated: SSize): (t: TaskId)
    requires generated >= 1
    ensures !IsCoroutine(t) && t.id > 0
  {
    TaskId(generated, 0)
  }

  predicate IsCoroutine(t: TaskId)
  {
    t.id < 0
  }

  /** id(): static_cast<size_t>. */
  function AsSize(t: TaskId): (r: int)
    ensures 0 <= r < 0x1_0000_0000_0000_0000
    ensures t.id >= 0 ==> r == t.id
    ensures t.id < 0 ==> r == 0x1_0000_0000_0000_0000 + t.id
  {
    t.id % 0x1_0000_0000_0000_0000
  }

  /** The default id and TaskId(ThisThreadTag) run on the given thread, are not coroutine ids, and id() reads 0. */
  lemma ThisThreadSpec(current: ThreadId)
    ensures ThisThread(current).threadId == current
    ensures !IsCoroutine(ThisThread(current)) && AsSize(ThisThread(current)) == 0
  {
  }

  /** isCoroutine is the sign of the id: seen through id(), exactly the values with the top bit of size_t set. */
  lemma IsCoroutineSpec(t: TaskId)
    ensures IsCoroutine(t) <==> AsSize(t) >= 0x8000_0000_0000_0000
  {
  }

  /** std::tie(...) < std::tie(...): lexicographic on (id, thread). */
  predicate TieLess(a: TaskId, b: TaskId)
  {
    a.id < b.id || (a.id == b.id && a.threadId < b.threadId)
  }

  predicate Equal(a: TaskId, b: TaskId)
  {
    if IsCoroutine(a) && IsCoroutine(b) then a.id == b.id else a == b
  }

  predicate Less(a: TaskId, b: TaskId)
  {
    if IsCoroutine(a) && IsCoroutine(b) then a.id < b.id else TieLess(a, b)
  }

  predicate Greater(a: TaskId, b: TaskId)
  {
    !Equal(a, b) && !Less(a, b)
  }

  predicate LessOrEqual(a: TaskId, b: TaskId)
  {
    !Greater(a, b)
  }

  predicate GreaterOrEqual(a: TaskId, b: TaskId)
  {
    !Less(a, b)
  }

  /** Two ids are equal when their ids match and, unless they are coroutines, so do their threads. */
  lemma EqualSpec(a: TaskId, b: TaskId)
    ensures Equal(a, b) <==> a.id == b.id && (a.id < 0 || a.threadId == b.threadId)
  {
  }

  /** Equality is an equivalence: coroutines are identified across threads. */
  lemma EqualIsEquivalence(a: TaskId, b: TaskId, c: TaskId)
    ensures Equal(a, a)
    ensures Equal(a, b) ==> Equal(b, a)
    ensures Equal(a, b) && Equal(b, c) ==> Equal(a, c)
  {
  }

  /** Exactly one of a < b, a == b and b < a holds. */
  lemma Trichotomy(a: TaskId, b: TaskId)
    ensures Less(a, b) || Equal(a, b) || Less(b, a)
    ensures !(Less(a, b) && Equal(a, b))
    ensures !(Less(a, b) && Less(b, a))
    ensures !(Equal(a, b) && Less(b, a))
  {
  }

  lemma LessIsTransitive(a: TaskId, b: TaskId, c: TaskId)
    requires Less(a, b) && Less(b, c)
    ensures Less(a, c)
  {
  }

  /** The derived operators are the converses and complements the names promise. */
  lemma DerivedOperators(a: TaskId, b: TaskId)
    ensures Greater(a, b) <==> Less(b, a)
    ensures LessOrEqual(a, b) <==> Less(a, b) || Equal(a, b)
    ensures GreaterOrEqual(a, b) <==> Greater(a, b) || Equal(a, b)
  {
    Trichotomy(a, b);
  }

  /** Every coroutine id orders before every IO task id, whatever the threads. */
  lemma CoroutinesFirst(generatedCoro: SSize, generatedIo: SSize, t1: ThreadId, t2: ThreadId)
    requires generatedCoro >= 1 && generatedIo >= 1
    ensures Less(CoroContext(generatedCoro).(threadId := t1), ThreadContext(generatedIo).(threadId := t2))
  {
  }

  /** The k-th id generated after the counter holds g (the first is k = 1). */
  function Generated(g: SSize, k: nat): SSize
    requires 1 <= g
    decreases k
  {
    if k == 0 then g else NextId(Generated(g, k - 1))
  }

  /** The generator walks the cycle 1, 2, ..., SSIZE_MAX, 1, ... */
  lemma {:induction false} GeneratedCycle(g: SSize, k: nat)
    requires 1 <= g
    ensures Generated(g, k) == (g - 1 + k) % SSIZE_MAX + 1
    decreases k
  {
    if k > 0 {
      GeneratedCycle(g, k - 1);
      var p := Generated(g, k - 1);
      NextIdSpec(p);
      if p < SSIZE_MAX {
        assert (g - 1 + k - 1) % SSIZE_MAX + 1 < SSIZE_MAX;
        ModStep(g - 1 + k - 1);
      } else {
        ModStep(g - 1 + k - 1);
      }
    }
  }

  lemma ModStep(x: nat)
    ensures (x + 1) % SSIZE_MAX == (if x % SSIZE_MAX + 1 == SSIZE_MAX then 0 else x % SSIZE_MAX + 1)
  {
    var q := x / SSIZE_MAX;
    var r := x % SSIZE_MAX;
    assert x == q * SSIZE_MAX + r;
    if r + 1 == SSIZE_MAX {
      assert x + 1 == (q + 1) * SSIZE_MAX;
    } else {
      assert x + 1 == q * SSIZE_MAX + (r + 1);
    }
  }

  /** x + d, for 0 < d < SSIZE_MAX, never has the remainder of x. */
  lemma ModShifted(x: nat, d: nat)
    requires 0 < d < SSIZE_MAX
    ensures (x + d) % SSIZE_MAX != x % SSIZE_MAX
  {
    var q, r := x / SSIZE_MAX, x % SSIZE_MAX;
    assert x == q * SSIZE_MAX + r;
    if r + d < SSIZE_MAX {
      assert x + d == q * SSIZE_MAX + (r + d);
      assert (x + d) % SSIZE_MAX == r + d;
    } else {
      assert x + d == (q + 1) * SSIZE_MAX + (r + d - SSIZE_MAX);
      assert (x + d) % SSIZE_MAX == r + d - SSIZE_MAX;
    }
  }

  /** Ids drawn within one cycle of the generator are pairwise distinct. */
  lemma GeneratedDistinct(g: SSize, k1: nat, k2: nat)
    requires 1 <= g && k1 < k2 && k2 - k1 < SSIZE_MAX
    ensures Generated(g, k1) != Generated(g, k2)
  {
    GeneratedCycle(g, k1);
    GeneratedCycle(g, k2);
    CycleDistinct(g, k1, k2);
  }

  /** Positions of the cycle less than a full turn apart differ. */
  lemma CycleDistinct(g: SSize, k1: nat, k2: nat)
    requires 1 <= g && k1 < k2 && k2 - k1 < SSIZE_MAX
    ensures (g - 1 + k1) % SSIZE_MAX != (g - 1 + k2) % SSIZE_MAX
  {
    var x: nat, d := g - 1 + k1, k2 - k1;
    ModShifted(x, d);
    assert x + d == g - 1 + k2;
  }

  /** The process-wide generator (a static std::atomic<ssize_t> starting at 1). */
  class Generator {
    var gen: SSize

    ghost predicate Valid()
      reads this
    {
      1 <= gen
    }

    constructor ()
      ensures Valid() && gen == 1
    {
      gen := 1;
    }

    /**
     * compare_exchange_weak on the counter, run without interference but
     * allowed to fail spuriously: on a real match the counter takes
     * `desired`, otherwise `expected` takes the counter's value.
     */
    method CompareExchangeWeak(expected: SSize, desired: SSize, spurious: bool) returns (ok: bool, seen: SSize)
      modifies this
      ensures ok <==> old(gen) == expected && !spurious
      ensures ok ==> gen == desired && seen == expected
      ensures !ok ==> gen == old(gen) && seen == gen
    {
      if gen == expected && !spurious {
        gen := desired;
        ok, seen := true, expected;
      } else {
        ok, seen := false, gen;
      }
    }

    /**
     * generate: the new counter value, which is also the id handed out.
     * `failures` says how many compare-exchange attempts fail spuriously
     * before one goes through.
     */
    method Generate(failures: nat) returns (j: SSize)
      requires Valid()
      modifies this
      ensures Valid()
      ensures j == gen == NextId(old(gen)) && j >= 1
    {
      var i := gen;
      j := NextId(i);
      var ok;
      ok, i := CompareExchangeWeak(i, j, failures > 0);
      var attempts: nat := 1;
      while !ok
        invariant ok ==> gen == j == NextId(old(gen))
        invariant !ok ==> gen == old(gen) == i && attempts <= failures
        decreases if ok then 0 else failures - attempts + 1
      {
        j := Retry(i);
        ok, i := CompareExchangeWeak(i, j, attempts < failures);
        attempts := attempts + 1;
      }
      NextIdSpec(old(gen));
    }
  }

  /** The value a failed attempt retries with: 1 after a rollover into the negatives, else the successor. */
  function Retry(i: SSize): (j: SSize)
    ensures i >= 0 ==> j == NextId(i)
  {
    if i < 0 then 1 else NextId(i)
  }
}
