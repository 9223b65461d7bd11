// ContiguousPoolManager of quantum_contiguous_pool_manager_impl.h: a
// buffer of `size` blocks handed out from a stack of free block indices
// (`freeBlocks[0..freeBlockIndex]`, top last), falling back to the heap when
// the top of the stack holds no run of contiguous blocks.
module PoolManagers {
  import opened FutureStates

  /** uint16_t, the allocator's index_type. */
  const INDEX_LIMIT: int := 0x1_0000

  /** A pointer the allocator hands out or takes back; a heap block records how many bytes were allocated for it. */
  datatype Ptr = Null | Block(index: int) | HeapBlock(bytes: nat)

  /** The allocator's state: pool size, free stack (top last) and heap block count. */
  datatype Pool = Pool(size: nat, free: seq<int>, heap: nat)

  /** A freshly built free stack 0, 1, ..., size-1. */
  function Range(size: nat): (r: seq<int>)
    ensures |r| == size && forall i | 0 <= i < size :: r[i] == i
    decreases size
  {
    if size == 0 then [] else Range(size - 1) + [size - 1]
  }

  /** The pool right after setBuffer: every block free, none on the heap. */
  function Filled(size: nat, heap: nat): Pool
  {
    Pool(size, Range(size), heap)
  }

  /** findContiguous: the top n entries of the stack name n consecutive blocks, the highest on top. */
  predicate FindContiguous(free: seq<int>, n: nat)
  {
    n <= |free| &&
    forall i | |free| - n <= i < |free| :: free[|free| - 1] - free[i] == |free| - 1 - i
  }

  /**
   * allocate: pop a contiguous run and hand out its lowest block, else count
   * one heap block with room for the n objects of `valueSize` bytes each.
   */
  function Allocate(p: Pool, n: nat, valueSize: nat): (Pool, Ptr)
    requires n >= 1
  {
    if FindContiguous(p.free, n) then
      (p.(free := p.free[..|p.free| - n]), Block(p.free[|p.free| - n]))
    else (p.(heap := p.heap + 1), HeapBlock(n * valueSize))
  }

  /** The check allocate makes as written: n is narrowed to the 16-bit index type before findContiguous sees it. */
  predicate FindContiguousAsWritten(free: seq<int>, n: nat)
  {
    FindContiguous(free, n % INDEX_LIMIT)
  }

  /** allocate's heap fallback as written: `new char[sizeof(value_type)]`, one object's worth whatever n is. */
  function AllocateAsWritten(p: Pool, n: nat, valueSize: nat): (Pool, Ptr)
    requires n >= 1
  {
    if FindContiguous(p.free, n) then
      (p.(free := p.free[..|p.free| - n]), Block(p.free[|p.free| - n]))
    else (p.(heap := p.heap + 1), HeapBlock(valueSize))
  }

  /**
   * As written, a request for 65537 blocks with one block free passes the
   * narrowed check (it looks for 1 block), so the pool branch would take
   * more blocks than the stack holds; the unnarrowed check refuses it.
   */
  lemma NarrowingAdmitsOversize()
    ensures FindContiguousAsWritten([0], INDEX_LIMIT + 1) && |[0]| < INDEX_LIMIT + 1
    ensures !FindContiguous([0], INDEX_LIMIT + 1)
  {
    assert (INDEX_LIMIT + 1) % INDEX_LIMIT == 1;
  }

  /** As written, two 8-byte objects that fall back to the heap get 8 bytes; the corrected fallback allocates 16. */
  lemma HeapFallbackTooSmall()
    ensures var p := Pool(1, [], 0);
      AllocateAsWritten(p, 2, 8).1 == HeapBlock(8) && AllocateAsWritten(p, 2, 8).1.bytes < 2 * 8 &&
      Allocate(p, 2, 8).1 == HeapBlock(16)
  {
  }

  /** The indices b, b+1, ..., b+n-1. */
  function Run(b: int, n: nat): (r: seq<int>)
    ensures |r| == n && forall i | 0 <= i < n :: r[i] == b + i
    decreases n
  {
    if n == 0 then [] else Run(b, n - 1) + [b + n - 1]
  }

  predicate IsManaged(p: Pool, ptr: Ptr)
  {
    ptr.Block? && 0 <= ptr.index < p.size
  }

  /** deallocate: null is ignored; a managed block pushes its n indices back in order; a heap block is uncounted. */
  function Deallocate(p: Pool, ptr: Ptr, n: nat): Pool
    requires !ptr.Null? && !IsManaged(p, ptr) ==> p.heap >= 1
  {
    if ptr.Null? then p
    else if IsManaged(p, ptr) then p.(free := p.free + Run(ptr.index, n))
    else p.(heap := p.heap - 1)
  }

  function AllocatedBlocks(p: Pool): int
  {
    if p.size != 0 then p.size - |p.free| else 0
  }

  predicate IsFull(p: Pool) { |p.free| == p.size }

  predicate IsEmpty(p: Pool) { |p.free| == 0 }

  /** The free stack names distinct blocks of the buffer. */
  predicate Valid(p: Pool)
  {
    |p.free| <= p.size &&
    (forall i | 0 <= i < |p.free| :: 0 <= p.free[i] < p.size) &&
    (forall i, j | 0 <= i < j < |p.free| :: p.free[i] != p.free[j])
  }

  /** The blocks b..b+n-1 are in the buffer and none of them is free: they may be given back. */
  predicate Returnable(p: Pool, b: int, n: nat)
  {
    0 <= b && b + n <= p.size && forall i | 0 <= i < |p.free| :: !(b <= p.free[i] < b + n)
  }

  /** After setBuffer every block is free and the pool is full and valid. */
  lemma FilledSpec(size: nat, heap: nat)
    requires size >= 1
    ensures Valid(Filled(size, heap)) && IsFull(Filled(size, heap)) && !IsEmpty(Filled(size, heap))
    ensures AllocatedBlocks(Filled(size, heap)) == 0
  {
  }

  /** findContiguous fails whenever fewer than n blocks are free, and a single free block always suffices. */
  lemma FindContiguousSpec(free: seq<int>, n: nat)
    ensures |free| < n ==> !FindContiguous(free, n)
    ensures |free| >= 1 ==> FindContiguous(free, 1)
  {
  }

  /**
   * A pool allocation hands out the lowest block of a run of n free blocks
   * and takes exactly those n off the stack; otherwise only the heap count
   * changes. Either way the pool stays valid.
   */
  lemma AllocateSpec(p: Pool, n: nat, valueSize: nat)
    requires Valid(p) && n >= 1
    ensures var (q, ptr) := Allocate(p, n, valueSize);
            Valid(q) && q.size == p.size &&
            (ptr.Block? ==> q.heap == p.heap && |q.free| == |p.free| - n &&
                            Run(ptr.index, n) == p.free[|p.free| - n..] && Returnable(q, ptr.index, n)) &&
            (ptr.HeapBlock? ==> q == p.(heap := p.heap + 1) && !FindContiguous(p.free, n) && ptr.bytes == n * valueSize) &&
            (n > |p.free| ==> ptr.HeapBlock?)
  {
    if FindContiguous(p.free, n) {
      TopIsRun(p.free, n);
      PrefixAvoidsRun(p, n);
    }
  }

  /** The run findContiguous accepts is b, b+1, ..., b+n-1 for the deepest of its blocks b. */
  lemma TopIsRun(free: seq<int>, n: nat)
    requires FindContiguous(free, n) && n >= 1
    ensures free[|free| - n..] == Run(free[|free| - n], n)
  {
    var top := free[|free| - n..];
    var b := free[|free| - n];
    forall i | 0 <= i < n
      ensures top[i] == b + i
    {
      assert free[|free| - 1] - free[|free| - n + i] == n - 1 - i;
    }
  }

  /** s[j], total. */
  function At(s: seq<int>, j: int): int
  {
    if 0 <= j < |s| then s[j] else 0
  }

  /** A distinct stack holds none of the blocks of its top run below that run. */
  lemma PrefixAvoidsRun(p: Pool, n: nat)
    requires Valid(p) && n >= 1 && n <= |p.free|
    requires p.free[|p.free| - n..] == Run(p.free[|p.free| - n], n)
    ensures Returnable(p.(free := p.free[..|p.free| - n]), p.free[|p.free| - n], n)
  {
    var b := p.free[|p.free| - n];
    assert b + n - 1 == p.free[|p.free| - 1];
    forall i | 0 <= i < |p.free| - n
      ensures !(b <= p.free[i] < b + n)
    {
      var v := p.free[i];
      var j := v - b + |p.free| - n;
      assert |p.free| - n <= j < |p.free| ==> At(p.free, j) == v;
    }
  }

  /** Giving back what the last allocation handed out restores the pool exactly. */
  lemma AllocateDeallocateRoundTrip(p: Pool, n: nat, valueSize: nat)
    requires Valid(p) && n >= 1
    ensures var (q, ptr) := Allocate(p, n, valueSize); Deallocate(q, ptr, n) == p
  {
    var (q, ptr) := Allocate(p, n, valueSize);
    AllocateSpec(p, n, valueSize);
    if ptr.Block? {
      assert q.free + p.free[|p.free| - n..] == p.free;
    }
  }

  /** Returning blocks that are not free keeps the stack valid, and they go on top in order. */
  lemma DeallocateKeeps(p: Pool, b: int, n: nat)
    requires Valid(p) && Returnable(p, b, n) && n >= 1
    ensures var q := Deallocate(p, Block(b), n);
            Valid(q) && q.free[..|p.free|] == p.free && q.free[|p.free|..] == Run(b, n)
  {
    var q := Deallocate(p, Block(b), n);
    assert q.free == p.free + Run(b, n);
    assert Distinct(q.free) by {
      forall i, j | 0 <= i < j < |q.free|
        ensures q.free[i] != q.free[j]
      {
        if j < |p.free| {
        } else if i >= |p.free| {
          assert q.free[i] == b + (i - |p.free|) && q.free[j] == b + (j - |p.free|);
        } else {
          assert q.free[i] == p.free[i] && q.free[j] == b + (j - |p.free|);
        }
      }
    }
    ValuesCount(q.free);
    RangeCount(p.size);
    forall v | v in Values(q.free)
      ensures v in Values(Range(p.size))
    {
      assert Range(p.size)[v] == v;
    }
    SubsetCount(Values(q.free), Values(Range(p.size)));
  }

  predicate Distinct(s: seq<int>)
  {
    forall i, j | 0 <= i < j < |s| :: s[i] != s[j]
  }

  function Values(s: seq<int>): set<int>
  {
    set i | 0 <= i < |s| :: s[i]
  }

  lemma {:induction false} ValuesCount(s: seq<int>)
    requires Distinct(s)
    ensures |Values(s)| == |s|
    decreases |s|
  {
    if s != [] {
      var t := s[..|s| - 1];
      ValuesCount(t);
      assert Values(s) == Values(t) + {s[|s| - 1]};
      assert s[|s| - 1] !in Values(t);
    }
  }

  lemma RangeCount(size: nat)
    ensures |Values(Range(size))| == size
  {
    ValuesCount(Range(size));
  }

  lemma SubsetCount(a: set<int>, b: set<int>)
    requires a <= b
    ensures |a| <= |b|
  {
    assert b == a + (b - a);
    assert a * (b - a) == {};
  }

  /** allocatedBlocks counts the blocks off the stack; full and empty match the stack bounds. */
  lemma CountsSpec(p: Pool)
    requires Valid(p) && p.size >= 1
    ensures AllocatedBlocks(p) == p.size - |p.free| >= 0
    ensures IsFull(p) <==> AllocatedBlocks(p) == 0
    ensures IsEmpty(p) <==> AllocatedBlocks(p) == p.size
  {
  }

  /** The allocator: the free-index stack is an array, the rest are fields. */
  class PoolManager {
    /** sizeof(value_type) */
    const valueSize: nat
    var size: nat
    var hasBuffer: bool
    var freeBlocks: array<int>
    var freeBlockIndex: int
    var numHeapAllocatedBlocks: nat

    function Snapshot(): Pool
      reads this, freeBlocks
      requires -1 <= freeBlockIndex < freeBlocks.Length
    {
      Pool(size, freeBlocks[..freeBlockIndex + 1], numHeapAllocatedBlocks)
    }

    ghost predicate Ready()
      reads this, freeBlocks
    {
      hasBuffer && freeBlocks.Length == size && -1 <= freeBlockIndex < size && Valid(Snapshot())
    }

    /** The default constructor: no buffer yet. */
    constructor (valueSize: nat)
      ensures !hasBuffer && size == 0 && freeBlockIndex == -1 && numHeapAllocatedBlocks == 0
      ensures this.valueSize == valueSize
    {
      this.valueSize := valueSize;
      size, hasBuffer, freeBlockIndex, numHeapAllocatedBlocks := 0, false, -1, 0;
      freeBlocks := new int[0];
    }

    /** setBuffer: rejects a null buffer and an empty pool, else builds the free stack 0..size-1. */
    method SetBuffer(bufferIsNull: bool, newSize: nat) returns (r: Outcome<()>)
      requires newSize < INDEX_LIMIT
      modifies this
      ensures bufferIsNull ==> r == Throw(RuntimeError("Null buffer")) && unchanged(this)
      ensures !bufferIsNull && newSize == 0 ==> r == Throw(RuntimeError("Invalid allocator pool size")) && unchanged(this)
      ensures r.Ok? <==> !bufferIsNull && newSize != 0
      ensures r.Ok? ==> Ready() && fresh(freeBlocks) && Snapshot() == Filled(newSize, old(numHeapAllocatedBlocks))
    {
      if bufferIsNull {
        return Throw(RuntimeError("Null buffer"));
      }
      if newSize == 0 {
        return Throw(RuntimeError("Invalid allocator pool size"));
      }
      var blocks := new int[newSize];
      var i := 0;
      while i < newSize
        invariant 0 <= i <= newSize
        invariant blocks[..i] == Range(i)
        invariant unchanged(this)
      {
        blocks[i] := i;
        assert blocks[..i + 1] == blocks[..i] + [i];
        i := i + 1;
      }
      assert blocks[..newSize] == blocks[..];
      size, hasBuffer := newSize, true;
      freeBlocks := blocks;
      freeBlockIndex := newSize - 1;
      FilledSpec(newSize, numHeapAllocatedBlocks);
      return Ok(());
    }

    /** findContiguous, as a loop down from the top of the stack. */
    method FindContiguousLoop(n: nat) returns (found: bool)
      requires Ready() && n >= 1
      ensures found == FindContiguous(Snapshot().free, n)
    {
      if freeBlockIndex + 1 < n {
        return false;
      }
      var last := freeBlocks[freeBlockIndex];
      var i := freeBlockIndex - 1;
      while i > freeBlockIndex - n
        invariant freeBlockIndex - n <= i < freeBlockIndex
        invariant forall k | i < k <= freeBlockIndex :: last - freeBlocks[k] == freeBlockIndex - k
      {
        if last - freeBlocks[i] != freeBlockIndex - i {
          return false;
        }
        i := i - 1;
      }
      return true;
    }

    /** allocate(n): pool blocks when the top of the stack has a contiguous run, else a heap block. */
    method AllocateBlocks(n: nat) returns (p: Ptr)
      requires Ready() && n >= 1
      modifies this
      ensures Ready() && freeBlocks == old(freeBlocks)
      ensures (Snapshot(), p) == Allocate(old(Snapshot()), n, valueSize)
    {
      var found := FindContiguousLoop(n);
      if found {
        p := AllocateFromPool(n);
      } else {
        p := AllocateFromHeap(n);
      }
    }

    /** The pool branch of allocate: the top n entries leave the stack and the deepest of them is handed out. */
    method AllocateFromPool(n: nat) returns (p: Ptr)
      requires Ready() && n >= 1 && FindContiguous(Snapshot().free, n)
      modifies this
      ensures Ready() && freeBlocks == old(freeBlocks)
      ensures (Snapshot(), p) == Allocate(old(Snapshot()), n, valueSize)
    {
      ghost var p0 := Snapshot();
      AllocateSpec(p0, n, valueSize);
      p := Block(freeBlocks[freeBlockIndex + 1 - n]);
      freeBlockIndex := freeBlockIndex - n;
      assert Snapshot().free == p0.free[..|p0.free| - n];
    }

    /** The heap branch of allocate: one more block counted as taken from the heap. */
    method AllocateFromHeap(n: nat) returns (p: Ptr)
      requires Ready() && n >= 1 && !FindContiguous(Snapshot().free, n)
      modifies this
      ensures Ready() && freeBlocks == old(freeBlocks)
      ensures (Snapshot(), p) == Allocate(old(Snapshot()), n, valueSize)
    {
      numHeapAllocatedBlocks := numHeapAllocatedBlocks + 1;
      p := HeapBlock(n * valueSize);
      assert Snapshot() == old(Snapshot()).(heap := old(Snapshot()).heap + 1);
    }

    /** deallocate(p, n): the caller gives back what an allocation of n blocks handed out. */
    method DeallocateBlocks(ptr: Ptr, n: nat)
      requires Ready() && n >= 1
      requires IsManaged(Snapshot(), ptr) ==> Returnable(Snapshot(), ptr.index, n)
      requires !ptr.Null? && !IsManaged(Snapshot(), ptr) ==> numHeapAllocatedBlocks >= 1
      modifies this, freeBlocks
      ensures Ready() && freeBlocks == old(freeBlocks)
      ensures Snapshot() == Deallocate(old(Snapshot()), ptr, n)
    {
      if ptr.Null? {
        return;
      }
      if IsManaged(Snapshot(), ptr) {
        ghost var p0 := Snapshot();
        DeallocateKeeps(p0, ptr.index, n);
        PushBlocks(ptr.index, n);
        assert Snapshot() == Deallocate(p0, ptr, n);
      } else {
        numHeapAllocatedBlocks := numHeapAllocatedBlocks - 1;
      }
    }

    /** The loop of deallocate: the indices b..b+n-1 are pushed on the free stack in order. */
    method PushBlocks(b: int, n: nat)
      requires -1 <= freeBlockIndex && freeBlockIndex + n < freeBlocks.Length
      modifies this, freeBlocks
      ensures freeBlocks == old(freeBlocks) && freeBlockIndex == old(freeBlockIndex) + n
      ensures freeBlocks[..freeBlockIndex + 1] == old(freeBlocks[..freeBlockIndex + 1]) + Run(b, n)
      ensures size == old(size) && hasBuffer == old(hasBuffer) && numHeapAllocatedBlocks == old(numHeapAllocatedBlocks)
    {
      ghost var start := freeBlocks[..freeBlockIndex + 1];
      var i := 0;
      while i < n
        invariant freeBlocks == old(freeBlocks) && 0 <= i <= n && freeBlockIndex == old(freeBlockIndex) + i
        invariant freeBlocks[..freeBlockIndex + 1] == start + Run(b, i)
        invariant size == old(size) && hasBuffer == old(hasBuffer) && numHeapAllocatedBlocks == old(numHeapAllocatedBlocks)
      {
        ghost var before := freeBlocks[..freeBlockIndex + 1];
        freeBlockIndex := freeBlockIndex + 1;
        freeBlocks[freeBlockIndex] := b + i;
        assert freeBlocks[..freeBlockIndex] == before;
        assert freeBlocks[..freeBlockIndex + 1] == before + [b + i];
        assert Run(b, i + 1) == Run(b, i) + [b + i];
        i := i + 1;
      }
    }

    /** allocatedBlocks: the blocks off the free stack. */
    function Allocated(): (n: int)
      reads this, freeBlocks
      requires -1 <= freeBlockIndex < freeBlocks.Length
      ensures n == AllocatedBlocks(Snapshot())
      ensures Ready() && size >= 1 ==> 0 <= n <= size
    {
      if size != 0 then size - freeBlockIndex - 1 else 0
    }

    /** isFull: every block is on the free stack. */
    predicate Full()
      reads this, freeBlocks
      requires -1 <= freeBlockIndex < freeBlocks.Length
      ensures Full() <==> IsFull(Snapshot())
    {
      freeBlockIndex == size - 1
    }

    /** isEmpty: no block is on the free stack. */
    predicate Empty()
      reads this, freeBlocks
      requires -1 <= freeBlockIndex < freeBlocks.Length
      ensures Empty() <==> IsEmpty(Snapshot())
    {
      freeBlockIndex == -1
    }
  }
}
