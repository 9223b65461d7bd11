// ReadWriteSpinLock of quantum_read_write_spinlock_impl.h: one atomic int
// that is 0 when free, -1 when write-locked and the number of readers
// otherwise; plus the ReadGuard and WriteGuard scoped owners.
module ReadWriteSpinLocks {
  /** The outcome of one lock operation: whether it took effect, and the new counter. */
  datatype Attempt = Attempt(ok: bool, count: int)

  function TryLockRead(c: int): Attempt
  {
    if c == -1 then Attempt(false, c) else Attempt(true, c + 1)
  }

  function TryLockWrite(c: int): Attempt
  {
    if c == 0 then Attempt(true, -1) else Attempt(false, c)
  }

  function UnlockRead(c: int): Attempt
  {
    if c > 0 then Attempt(true, c - 1) else Attempt(false, c)
  }

  function UnlockWrite(c: int): Attempt
  {
    if c == -1 then Attempt(true, 0) else Attempt(false, c)
  }

  predicate IsLocked(c: int) { c != 0 }

  predicate IsReadLocked(c: int) { c > 0 }

  predicate IsWriteLocked(c: int) { c == -1 }

  function NumReaders(c: int): int
  {
    if c == -1 then 0 else c
  }

  /** A counter the lock can reach: free, write-locked, or held by that many readers. */
  predicate Reachable(c: int) { c >= -1 }

  /** tryLockRead fails exactly when write-locked; otherwise one more reader holds it. */
  lemma TryLockReadSpec(c: int)
    requires Reachable(c)
    ensures !TryLockRead(c).ok <==> IsWriteLocked(c)
    ensures TryLockRead(c).ok ==> IsReadLocked(TryLockRead(c).count) && NumReaders(TryLockRead(c).count) == NumReaders(c) + 1
    ensures !TryLockRead(c).ok ==> TryLockRead(c).count == c
  {
  }

  /** tryLockWrite succeeds exactly on a free lock, which it write-locks; otherwise nothing changes. */
  lemma TryLockWriteSpec(c: int)
    ensures TryLockWrite(c).ok <==> !IsLocked(c)
    ensures TryLockWrite(c).ok ==> IsWriteLocked(TryLockWrite(c).count) && NumReaders(TryLockWrite(c).count) == 0
    ensures !TryLockWrite(c).ok ==> TryLockWrite(c).count == c
  {
  }

  /** Releasing undoes acquiring: a read lock for any reachable counter, a write lock on the free lock. */
  lemma LockRoundTrips(c: int)
    requires Reachable(c)
    ensures TryLockRead(c).ok ==> UnlockRead(TryLockRead(c).count) == Attempt(true, c)
    ensures UnlockWrite(TryLockWrite(0).count) == Attempt(true, 0)
    ensures !UnlockRead(c).ok <==> !IsReadLocked(c)
    ensures !UnlockWrite(c).ok ==> UnlockWrite(c).count == c
  {
  }

  /** A reachable counter is in exactly one of the three states, and no operation leaves the reachable range. */
  lemma StatesPartition(c: int)
    requires Reachable(c)
    ensures !IsLocked(c) || IsReadLocked(c) || IsWriteLocked(c)
    ensures !(IsReadLocked(c) && IsWriteLocked(c))
    ensures IsLocked(c) <==> IsReadLocked(c) || IsWriteLocked(c)
    ensures NumReaders(c) >= 0 && (IsReadLocked(c) <==> NumReaders(c) > 0)
    ensures Reachable(TryLockRead(c).count) && Reachable(TryLockWrite(c).count)
    ensures Reachable(UnlockRead(c).count) && Reachable(UnlockWrite(c).count)
  {
  }

  // ---- Guards, as values: every guard ever made on one lock ----

  datatype Kind = ReadKind | WriteKind

  /** A guard: its kind, its _ownsLock flag, and whether it is still alive. */
  datatype Guard = Guard(kind: Kind, owns: bool, alive: bool)

  /** Does this guard hold a share of the lock? */
  function Holds(g: Guard, k: Kind): nat
  {
    if g.alive && g.owns && g.kind == k then 1 else 0
  }

  function Holding(gs: seq<Guard>, k: Kind): nat
    decreases |gs|
  {
    if gs == [] then 0 else Holding(gs[..|gs| - 1], k) + Holds(gs[|gs| - 1], k)
  }

  /** The counter is exactly what the live owning guards account for. */
  predicate Consistent(c: int, gs: seq<Guard>)
  {
    var r, w := Holding(gs, ReadKind), Holding(gs, WriteKind);
    (w == 0 && c == r) || (w == 1 && r == 0 && c == -1)
  }

  lemma {:induction false} HoldingUpdate(gs: seq<Guard>, i: nat, g: Guard, k: Kind)
    requires i < |gs|
    ensures Holding(gs[i := g], k) == Holding(gs, k) - Holds(gs[i], k) + Holds(g, k)
    decreases |gs|
  {
    var n := |gs| - 1;
    if i < n {
      assert gs[i := g][..n] == gs[..n][i := g];
      HoldingUpdate(gs[..n], i, g, k);
    } else {
      assert gs[i := g][..n] == gs[..n];
    }
  }

  lemma HoldingAppend(gs: seq<Guard>, g: Guard, k: Kind)
    ensures Holding(gs + [g], k) == Holding(gs, k) + Holds(g, k)
  {
    assert (gs + [g])[..|gs|] == gs;
  }

  /** ReadGuard(lock): blocks until no writer holds the lock, then holds a share. */
  function NewReadGuard(c: int): (int, Guard)
    requires c != -1
  {
    (TryLockRead(c).count, Guard(ReadKind, true, true))
  }

  /** ReadGuard(lock, TryToLock): holds a share only if tryLockRead succeeded. */
  function TryReadGuard(c: int): (int, Guard)
  {
    var a := TryLockRead(c);
    (a.count, Guard(ReadKind, a.ok, true))
  }

  /** WriteGuard(lock): blocks until the lock is free, then write-locks it. */
  function NewWriteGuard(c: int): (int, Guard)
    requires c == 0
  {
    (TryLockWrite(c).count, Guard(WriteKind, true, true))
  }

  function TryWriteGuard(c: int): (int, Guard)
  {
    var a := TryLockWrite(c);
    (a.count, Guard(WriteKind, a.ok, true))
  }

  function Acquire(k: Kind, c: int): Attempt
  {
    if k == ReadKind then TryLockRead(c) else TryLockWrite(c)
  }

  function Release(k: Kind, c: int): Attempt
  {
    if k == ReadKind then UnlockRead(c) else UnlockWrite(c)
  }

  /** Whether a blocking lock of this kind may go ahead now. */
  predicate CanLock(k: Kind, c: int)
  {
    if k == ReadKind then c != -1 else c == 0
  }

  /** Guard::lock: acquires (after blocking) only when the guard does not own the lock yet. */
  function GuardLock(c: int, g: Guard): (int, Guard)
    requires g.alive && (!g.owns ==> CanLock(g.kind, c))
  {
    if g.owns then (c, g) else (Acquire(g.kind, c).count, g.(owns := true))
  }

  /** Guard::tryLock. */
  function GuardTryLock(c: int, g: Guard): (int, Guard)
    requires g.alive
  {
    if g.owns then (c, g) else (Acquire(g.kind, c).count, g.(owns := Acquire(g.kind, c).ok))
  }

  /** Guard::unlock as written: releases an owned lock but keeps _ownsLock set. */
  function GuardUnlockAsWritten(c: int, g: Guard): (int, Guard)
    requires g.alive
  {
    if g.owns then (Release(g.kind, c).count, g) else (c, g)
  }

  /** Guard::unlock as intended: releases an owned lock and clears _ownsLock. */
  function GuardUnlock(c: int, g: Guard): (int, Guard)
    requires g.alive
  {
    if g.owns then (Release(g.kind, c).count, g.(owns := false)) else (c, g)
  }

  /** The guard's destructor: releases an owned lock. */
  function GuardDestroy(c: int, g: Guard): (int, Guard)
    requires g.alive
  {
    if g.owns then (Release(g.kind, c).count, g.(alive := false)) else (c, g.(alive := false))
  }

  /** lock and tryLock touch the counter only when the guard does not own the lock already. */
  lemma GuardLockOnlyIfNotOwned(c: int, g: Guard)
    requires g.alive && (!g.owns ==> CanLock(g.kind, c))
    ensures g.owns ==> GuardLock(c, g) == (c, g) && GuardTryLock(c, g) == (c, g)
    ensures !g.owns ==> GuardLock(c, g).0 == Acquire(g.kind, c).count && GuardLock(c, g).1.owns
    ensures !g.owns ==> GuardTryLock(c, g).1.owns == Acquire(g.kind, c).ok
  {
  }

  /** One guard operation (with the intended unlock) applied to guard i. */
  datatype GuardOp = Lock | TryLock | Unlock | Destroy

  function ApplyOp(op: GuardOp, c: int, g: Guard): (int, Guard)
    requires g.alive && (op == Lock && !g.owns ==> CanLock(g.kind, c))
  {
    match op
    case Lock => GuardLock(c, g)
    case TryLock => GuardTryLock(c, g)
    case Unlock => GuardUnlock(c, g)
    case Destroy => GuardDestroy(c, g)
  }

  /** Creating a guard keeps the counter consistent with the guards. */
  lemma NewGuardKeeps(c: int, gs: seq<Guard>, k: Kind, try: bool)
    requires Consistent(c, gs)
    requires !try ==> CanLock(k, c)
    ensures var (c', g) := if k == ReadKind then (if try then TryReadGuard(c) else NewReadGuard(c))
                           else (if try then TryWriteGuard(c) else NewWriteGuard(c));
            Consistent(c', gs + [g]) && g.alive && g.kind == k
  {
    var (c', g) := if k == ReadKind then (if try then TryReadGuard(c) else NewReadGuard(c))
                   else (if try then TryWriteGuard(c) else NewWriteGuard(c));
    HoldingAppend(gs, g, ReadKind);
    HoldingAppend(gs, g, WriteKind);
  }

  /**
   * With the intended unlock, every guard operation keeps the counter equal
   * to what the live owning guards account for: no reader and writer ever
   * hold the lock together, and no release is lost or repeated.
   */
  lemma GuardOpKeeps(op: GuardOp, c: int, gs: seq<Guard>, i: nat)
    requires Consistent(c, gs) && i < |gs| && gs[i].alive
    requires op == Lock && !gs[i].owns ==> CanLock(gs[i].kind, c)
    ensures var (c', g) := ApplyOp(op, c, gs[i]); Consistent(c', gs[i := g])
  {
    var (c', g) := ApplyOp(op, c, gs[i]);
    HoldingUpdate(gs, i, g, ReadKind);
    HoldingUpdate(gs, i, g, WriteKind);
    HoldingBound(gs, i, ReadKind);
    HoldingBound(gs, i, WriteKind);
  }

  lemma {:induction false} HoldingBound(gs: seq<Guard>, i: nat, k: Kind)
    requires i < |gs|
    ensures Holding(gs, k) >= Holds(gs[i], k)
    decreases |gs|
  {
    var n := |gs| - 1;
    if i < n {
      HoldingBound(gs[..n], i, k);
    }
  }

  /**
   * As written, unlock() followed by the guard's destruction releases twice:
   * two readers hold the lock, the second unlocks and is destroyed, and the
   * counter reads 0 while the first reader still owns its share, so a writer
   * gets in beside it.
   */
  lemma UnlockThenDestroyReleasesTwice()
    ensures var (c1, g1) := NewReadGuard(0);
            var (c2, g2) := NewReadGuard(c1);
            var (c3, g2u) := GuardUnlockAsWritten(c2, g2);
            var (c4, g2d) := GuardDestroy(c3, g2u);
            c2 == 2 && c4 == 0 && g1.owns && g1.alive && TryLockWrite(c4).ok
              && Consistent(c2, [g1, g2]) && !Consistent(c4, [g1, g2d])
  {
    var g := Guard(ReadKind, true, true);
    var d := Guard(ReadKind, true, false);
    assert [g, d][..1] == [g] && [g, g][..1] == [g] && [g][..0] == [];
    assert Holding([g], ReadKind) == 1 && Holding([g], WriteKind) == 0;
    assert Holding([g, g], ReadKind) == 2 && Holding([g, g], WriteKind) == 0;
    assert Holding([g, d], ReadKind) == 1;
  }

  /** With the intended unlock, the same sequence leaves the first reader's share in place. */
  lemma UnlockThenDestroyReleasesOnce()
    ensures var (c1, g1) := NewReadGuard(0);
            var (c2, g2) := NewReadGuard(c1);
            var (c3, g2u) := GuardUnlock(c2, g2);
            var (c4, g2d) := GuardDestroy(c3, g2u);
            c4 == 1 && !TryLockWrite(c4).ok && Consistent(c4, [g1, g2d])
  {
    var g := Guard(ReadKind, true, true);
    var d := Guard(ReadKind, false, false);
    assert [g, d][..1] == [g] && [g][..0] == [];
    assert Holding([g], ReadKind) == 1 && Holding([g], WriteKind) == 0;
    assert Holding([g, d], ReadKind) == 1 && Holding([g, d], WriteKind) == 0;
  }

  /** The lock itself: the atomic counter, updated by compare-exchange loops. */
  class ReadWriteSpinLock {
    var count: int

    constructor ()
      ensures count == 0
    {
      count := 0;
    }

    /** compare_exchange on the counter, run without interference. */
    method CompareExchange(expected: int, desired: int) returns (ok: bool, seen: int)
      modifies this
      ensures ok <==> old(count) == expected
      ensures ok ==> count == desired && seen == expected
      ensures !ok ==> count == old(count) && seen == count
    {
      if count == expected {
        count := desired;
        ok, seen := true, expected;
      } else {
        ok, seen := false, count;
      }
    }

    /** lockRead: waits until no writer holds the lock (a precondition here), then adds a reader. */
    method LockRead()
      requires count != -1
      modifies this
      ensures count == TryLockRead(old(count)).count
    {
      count := count + 1;
    }

    /** lockWrite: waits until the lock is free (a precondition here), then write-locks it. */
    method LockWrite()
      requires count == 0
      modifies this
      ensures count == TryLockWrite(old(count)).count
    {
      count := -1;
    }

    method TryLockReadLoop() returns (ok: bool)
      modifies this
      ensures Attempt(ok, count) == TryLockRead(old(count))
    {
      var oldValue := 0;
      var newValue := 1;
      var done;
      done, oldValue := CompareExchange(oldValue, newValue);
      while !done
        invariant done ==> count == old(count) + 1 && old(count) != -1
        invariant !done ==> count == old(count) == oldValue
        decreases if done then 0 else 1
      {
        if oldValue == -1 {
          return false;
        } else {
          newValue := oldValue + 1;
        }
        done, oldValue := CompareExchange(oldValue, newValue);
      }
      return true;
    }

    method TryLockWriteOnce() returns (ok: bool)
      modifies this
      ensures Attempt(ok, count) == TryLockWrite(old(count))
    {
      var seen;
      ok, seen := CompareExchange(0, -1);
    }

    method UnlockReadLoop() returns (ok: bool)
      modifies this
      ensures Attempt(ok, count) == UnlockRead(old(count))
    {
      var oldValue := 1;
      var newValue := 0;
      var done;
      done, oldValue := CompareExchange(oldValue, newValue);
      while !done
        invariant done ==> count == old(count) - 1 && old(count) > 0
        invariant !done ==> count == old(count) == oldValue
        decreases if done then 0 else 1
      {
        if oldValue <= 0 {
          return false;
        } else {
          newValue := oldValue - 1;
        }
        done, oldValue := CompareExchange(oldValue, newValue);
      }
      return true;
    }

    method UnlockWriteOnce() returns (ok: bool)
      modifies this
      ensures Attempt(ok, count) == UnlockWrite(old(count))
    {
      var seen;
      ok, seen := CompareExchange(-1, 0);
    }

    function Locked(): bool
      reads this
    {
      IsLocked(count)
    }

    function ReadLocked(): bool
      reads this
    {
      IsReadLocked(count)
    }

    function WriteLocked(): bool
      reads this
    {
      IsWriteLocked(count)
    }

    function Readers(): int
      reads this
    {
      NumReaders(count)
    }
  }

  /** ReadGuard and WriteGuard: a lock reference and the _ownsLock flag. */
  class LockGuard {
    const lock: ReadWriteSpinLock
    const kind: Kind
    var ownsLock: bool

    function Value(alive: bool): Guard
      reads this
    {
      Guard(kind, ownsLock, alive)
    }

    /** ReadGuard(lock) / WriteGuard(lock): blocks until the lock can be taken. */
    constructor Locked(l: ReadWriteSpinLock, k: Kind)
      requires CanLock(k, l.count)
      modifies l
      ensures lock == l && kind == k
      ensures (l.count, Value(true)) ==
              (if k == ReadKind then NewReadGuard(old(l.count)) else NewWriteGuard(old(l.count)))
    {
      lock, kind, ownsLock := l, k, true;
      new;
      if k == ReadKind {
        l.LockRead();
      } else {
        l.LockWrite();
      }
    }

    /** ReadGuard(lock, TryToLock) / WriteGuard(lock, TryToLock). */
    constructor TryLocked(l: ReadWriteSpinLock, k: Kind)
      modifies l
      ensures lock == l && kind == k
      ensures (l.count, Value(true)) ==
              (if k == ReadKind then TryReadGuard(old(l.count)) else TryWriteGuard(old(l.count)))
    {
      lock, kind := l, k;
      var ok;
      if k == ReadKind {
        ok := l.TryLockReadLoop();
      } else {
        ok := l.TryLockWriteOnce();
      }
      ownsLock := ok;
    }

    method AcquireLock() returns (ok: bool)
      modifies lock
      ensures Attempt(ok, lock.count) == Acquire(kind, old(lock.count))
    {
      if kind == ReadKind {
        ok := lock.TryLockReadLoop();
      } else {
        ok := lock.TryLockWriteOnce();
      }
    }

    method ReleaseLock()
      modifies lock
      ensures lock.count == Release(kind, old(lock.count)).count
    {
      var ok;
      if kind == ReadKind {
        ok := lock.UnlockReadLoop();
      } else {
        ok := lock.UnlockWriteOnce();
      }
    }

    method Lock()
      requires !ownsLock ==> CanLock(kind, lock.count)
      modifies this, lock
      ensures (lock.count, Value(true)) == GuardLock(old(lock.count), old(Value(true)))
    {
      if !ownsLock {
        if kind == ReadKind {
          lock.LockRead();
        } else {
          lock.LockWrite();
        }
        ownsLock := true;
      }
    }

    method TryLock() returns (owns: bool)
      modifies this, lock
      ensures (lock.count, Value(true)) == GuardTryLock(old(lock.count), old(Value(true)))
      ensures owns == ownsLock
    {
      if !ownsLock {
        ownsLock := AcquireLock();
      }
      owns := ownsLock;
    }

    /** unlock, with _ownsLock cleared as intended (see GuardUnlockAsWritten for the source as written). */
    method Unlock()
      modifies this, lock
      ensures (lock.count, Value(true)) == GuardUnlock(old(lock.count), old(Value(true)))
    {
      if ownsLock {
        ReleaseLock();
        ownsLock := false;
      }
    }

    /** The destructor. */
    method Destroy()
      modifies lock
      ensures (lock.count, Value(false)) == GuardDestroy(old(lock.count), old(Value(true)))
    {
      if ownsLock {
        ReleaseLock();
      }
    }
  }
}
